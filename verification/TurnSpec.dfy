/** What each phase of a turn does, as functions on the turn's state. Everything outside the
    engine (the gateway, the store, the bus, the context, the tool executor) answers through
    an environment record, one for each phase that runs. */
module TurnSpec {
  import opened Llm
  import opened LoopDetection

  datatype Phase = Guard | Refining | Inference | Executing | Persisting | Recovering | Complete

  const MAX_EMPTY_RETRIES: nat := 3
  const LOOP_WARNING :=
    "SYSTEM WARNING: Infinite loop detected. You are repeating the exact same tool call or response. "
    + "The previous action was aborted. "
    + "Please analyze your previous steps and try a DIFFERENT tool or strategy."
  const WARNING := Content("", User, [TextPart(LOOP_WARNING)])

  /** The limits of a run, and whether the engine has an event bus: the loop detector is
      installed only then. */
  datatype Config = Config(maxToolTurns: int, maxRetries: int, hasBus: bool)

  /** One phase's view of the outside: ctx.Err(), the error of publishing an event (none
      also when there is no bus), Prepare, Generate, Execute, the token check, and the two
      appends to the history. */
  datatype Env = Env(
    ctxErr: Option<Error>,
    publishErr: Option<Error>,
    prepareErr: Option<Error>,
    reply: Option<Content>,
    replyErr: Option<Error>,
    exec: (Content, int, int) -> (Option<Content>, Option<Error>),
    oversized: Option<string>,
    firstAppendErr: Option<Error>,
    secondAppendErr: Option<Error>)

  /** What outlives a turn: the history and the run's loop detector. `gatewayCalls` and
      `executed` record the calls of Generate and the responses handed to the executor. */
  datatype World = World(
    history: seq<Content>,
    detector: Detector,
    rateLimited: bool,
    gatewayCalls: nat,
    executed: seq<Content>)

  datatype Turn = Turn(
    index: int,
    phase: Phase,
    hasToolCalls: bool,
    response: Option<Content>,
    toolResponse: Option<Content>,
    lastError: Option<Error>,
    retryCount: nat,
    recoveryFromOverflow: bool,
    world: World)

  function FreshTurn(index: int, world: World): Turn {
    Turn(index, Guard, false, None, None, None, 0, false, world)
  }

  /** ProcessResult and error of a phase. */
  datatype Outcome = Outcome(turn: Turn, next: Option<Phase>, err: Option<Error>)

  function Go(t: Turn, next: Phase): Outcome { Outcome(t, Some(next), None) }
  function Fail(t: Turn, e: Error): Outcome { Outcome(t, None, Some(e)) }

  function Append(t: Turn, c: Content): Turn { t.(world := t.world.(history := t.world.history + [c])) }

  // ---------------------------------------------------------------- the phases

  function GuardStep(cfg: Config, t: Turn, env: Env): Outcome {
    if env.ctxErr.Some? then Fail(t, env.ctxErr.value)
    else if t.index > cfg.maxToolTurns then
      Fail(t, Agent(Base(Terminal), "turn exceeds limit", Some(Base(MaxTurnsReached))))
    else if env.publishErr.Some? then Fail(t, env.publishErr.value)
    else Go(t, Refining)
  }

  function RefineStep(t: Turn, env: Env): Outcome {
    if env.prepareErr.Some? then Fail(t, PhaseError("context preparation failed", env.prepareErr.value))
    else Go(t, Inference)
  }

  const NIL_CONTENT := Agent(Base(Logic), "api returned nil content", None)
  const EMPTY_CONTENT := Agent(Base(Transient), "empty response from model", Some(Base(EmptyResponse)))

  /** The error of an inference: the gateway's, a nil response, or an empty one. */
  function InferenceError(env: Env): Option<Error> {
    if env.replyErr.Some? then env.replyErr
    else if env.reply.None? then Some(NIL_CONTENT)
    else if IsResponseEmpty(env.reply.value) then Some(EMPTY_CONTENT)
    else None
  }

  function InferStep(cfg: Config, t: Turn, env: Env): Outcome {
    var called := t.(world := t.world.(gatewayCalls := t.world.gatewayCalls + 1));
    var updated :=
      if env.reply.Some? then called.(response := env.reply, hasToolCalls := HasToolCalls(env.reply.value)) else called;
    var err := InferenceError(env);
    if err.Some? then Fail(updated, PhaseError("inference failed", err.value))
    else DetectStep(cfg, updated, env)
  }

  /** The loop detector's middleware around a successful inference. */
  function DetectStep(cfg: Config, t: Turn, env: Env): Outcome {
    var next := if t.hasToolCalls then Executing else Persisting;
    if !cfg.hasBus || t.response.None? then Go(t, next)
    else
      var (detector, flagged) := Detect(t.world.detector, t.response.value);
      var seen := t.(world := t.world.(detector := detector));
      if flagged then LoopBreak(seen, env) else Go(seen, next)
  }

  function SyntheticParts(calls: seq<FunctionCall>): seq<Part> {
    seq(|calls|, i requires 0 <= i < |calls| =>
      ResponsePart(FunctionResponse(calls[i].id, calls[i].name, LOOP_WARNING)))
  }

  /** What a loop break appends after the repeated response. */
  function Feedback(t: Turn): Option<Content> {
    if t.hasToolCalls && t.response.Some? then
      if Calls(t.response.value) == [] then None
      else Some(Content("", Tool, SyntheticParts(Calls(t.response.value))))
    else Some(WARNING)
  }

  function LoopBreak(t: Turn, env: Env): Outcome {
    if t.response.None? then Go(t, Complete)
    else if env.firstAppendErr.Some? then Fail(t, env.firstAppendErr.value)
    else
      var saved := Append(t, t.response.value);
      if Feedback(t).Some? && env.secondAppendErr.Some? then Fail(saved, env.secondAppendErr.value)
      else
        var told := if Feedback(t).Some? then Append(saved, Feedback(t).value) else saved;
        Go(told.(response := None, toolResponse := None, hasToolCalls := true), Complete)
  }

  /** TruncateOversizedResponse: every function response loses its payload, nothing else. */
  function TruncatePart(p: Part, message: string): Part {
    if p.response.Some? then p.(response := Some(p.response.value.(payload := message))) else p
  }

  function TruncateParts(parts: seq<Part>, message: string): seq<Part> {
    seq(|parts|, i requires 0 <= i < |parts| => TruncatePart(parts[i], message))
  }

  function Truncate(c: Content, message: string): Content { c.(parts := TruncateParts(c.parts, message)) }

  /** Part by part: the payload of a function response is replaced, all else is kept. */
  lemma {:induction false} TruncateExactly(c: Content, message: string)
    ensures var cut := Truncate(c, message);
      && cut.id == c.id && cut.role == c.role && |cut.parts| == |c.parts|
      && forall i | 0 <= i < |c.parts| ::
           match c.parts[i].response
           case None => cut.parts[i] == c.parts[i]
           case Some(r) =>
             && cut.parts[i].response == Some(FunctionResponse(r.id, r.name, message))
             && cut.parts[i].(response := None) == c.parts[i].(response := None)
  {
  }

  function ExecuteStep(cfg: Config, t: Turn, env: Env): Outcome
    requires t.hasToolCalls ==> t.response.Some?
  {
    if !t.hasToolCalls then Go(t, Persisting)
    else
      var (reply, err) := env.exec(t.response.value, t.index, cfg.maxToolTurns);
      var ran := t.(world := t.world.(executed := t.world.executed + [t.response.value]));
      var told :=
        if reply.None? then ran
        else
          var kept := if env.oversized.Some? then Truncate(reply.value, env.oversized.value) else reply.value;
          ran.(toolResponse := Some(kept));
      if err.Some? then Fail(told, PhaseError("tool execution failed", err.value)) else Go(told, Persisting)
  }

  /** Clear after append: what was saved is no longer pending. */
  function PersistStep(t: Turn, env: Env): Outcome {
    if t.response.Some? && env.firstAppendErr.Some? then Fail(t, PhaseError("history error", env.firstAppendErr.value))
    else
      var saved := if t.response.Some? then Append(t, t.response.value).(response := None) else t;
      if saved.toolResponse.Some? && env.secondAppendErr.Some? then
        Fail(saved, PhaseError("failed to persist tool results", env.secondAppendErr.value))
      else if saved.toolResponse.Some? then
        Go(Append(saved, saved.toolResponse.value).(toolResponse := None), Complete)
      else Go(saved, Complete)
  }

  /** DefaultRetryPolicy.ShouldRetry, without the delay. */
  predicate ShouldRetry(cfg: Config, e: Error, attempt: nat) {
    attempt < cfg.maxRetries && !e.IsFatal() && e.IsTransient()
  }

  function AttemptRetry(t: Turn, env: Env): Outcome {
    var counted := t.(retryCount := t.retryCount + 1);
    if env.publishErr.Some? then Fail(counted, env.publishErr.value)
    else if env.ctxErr.Some? then Fail(counted, env.ctxErr.value)
    else Go(counted, Refining)
  }

  function HandleFailure(t: Turn, e: Error): Outcome {
    Outcome(t, Some(Complete), Some(if e.IsTransient() then Wrap("max retries reached", e) else e))
  }

  function RecoverStep(cfg: Config, t: Turn, env: Env): Outcome {
    if t.lastError.None? then Go(t, Complete)
    else
      var e := t.lastError.value;
      if e.Is(EmptyResponse) then
        if t.retryCount < MAX_EMPTY_RETRIES then AttemptRetry(t, env) else Go(t, Persisting)
      else
        var category := Classify(e);
        var noted := if category == RateLimited then t.(world := t.world.(rateLimited := true)) else t;
        if category == AuthFailure then Outcome(noted, Some(Complete), Some(e))
        else if category == ContextOverflow && t.retryCount == 0 then
          Go(noted.(retryCount := 1, recoveryFromOverflow := true), Refining)
        else if ShouldRetry(cfg, e, t.retryCount) then AttemptRetry(noted, env)
        else HandleFailure(noted, e)
  }

  // ---------------------------------------------------------------- the loop

  function NextPhase(current: Phase, next: Option<Phase>, err: Option<Error>): Phase {
    if err.Some? && current != Recovering then Recovering
    else if next.Some? then next.value
    else Complete
  }

  predicate ReadyTurn(cfg: Config, t: Turn) {
    && t.retryCount <= Budget(cfg)
    && (t.phase == Executing ==> t.response.Some?)
    && (t.phase == Recovering ==> t.lastError.Some?)
  }

  function StepOutcome(cfg: Config, t: Turn, env: Env): Outcome
    requires ReadyTurn(cfg, t) && t.phase != Complete
  {
    match t.phase
    case Guard => GuardStep(cfg, t, env)
    case Refining => RefineStep(t, env)
    case Inference => InferStep(cfg, t, env)
    case Executing => ExecuteStep(cfg, t, env)
    case Persisting => PersistStep(t, env)
    case Recovering => RecoverStep(cfg, t, env)
  }

  /** The turn after an outcome. */
  function Land(t: Turn, o: Outcome): Turn {
    o.turn.(lastError := if o.err.Some? then o.err else o.turn.lastError, phase := NextPhase(t.phase, o.next, o.err))
  }

  function ExecutePhase(cfg: Config, t: Turn, env: Env): (Turn, Option<Error>)
    requires ReadyTurn(cfg, t) && t.phase != Complete
  {
    var o := StepOutcome(cfg, t, env);
    (Land(t, o), o.err)
  }

  predicate HasParts(c: Option<Content>) { c.Some? && c.value.parts != [] }

  function EmergencySave(t: Turn, env: Env): Turn {
    if HasParts(t.response) || HasParts(t.toolResponse) then PersistStep(t, env).turn else t
  }

  /** What the outside never returns: errEmptyResponse is private to the engine, and store
      errors are raw file errors, neither transient nor an overflow. */
  ghost predicate NotEmptyMarked(e: Option<Error>) { e.Some? ==> !e.value.Is(EmptyResponse) }

  ghost predicate StoreError(e: Option<Error>) {
    e.Some? ==>
      && !e.value.IsTransient()
      && !e.value.Is(EmptyResponse)
      && !e.value.Is(ContextLimitExceeded)
      && !e.value.Is(BudgetExceeded)
  }

  ghost predicate SaneEnv(env: Env) {
    && (env.ctxErr.Some? ==> ContextError(env.ctxErr.value))
    && NotEmptyMarked(env.publishErr)
    && NotEmptyMarked(env.prepareErr)
    && NotEmptyMarked(env.replyErr)
    && (forall c, i, m :: NotEmptyMarked(env.exec(c, i, m).1))
    && StoreError(env.firstAppendErr)
    && StoreError(env.secondAppendErr)
  }

  ghost predicate Sane(oracle: nat -> Env) { forall k :: SaneEnv(oracle(k)) }

  // ---------------------------------------------------------------- termination

  /** The retries a turn can spend: the policy's, or the empty responses'. */
  function Budget(cfg: Config): nat { if cfg.maxRetries > 3 then cfg.maxRetries else 3 }

  /** Recovery after an empty response ranks above Persisting: that is the one way back to
      Persisting that spends no retry. */
  function Rank(t: Turn): nat {
    match t.phase
    case Complete => 0
    case Recovering => if t.lastError.Some? && t.lastError.value.Is(EmptyResponse) then 3 else 1
    case Persisting => 2
    case Executing => 4
    case Inference => 5
    case Refining => 6
    case Guard => 7
  }

  /** Lexicographic: the retries left, then the rank of the phase. */
  function Energy(cfg: Config, t: Turn): nat
    requires t.retryCount <= Budget(cfg)
  {
    8 * (Budget(cfg) - t.retryCount) + Rank(t)
  }

  ghost predicate Decreased(cfg: Config, t: Turn, t': Turn) {
    && ReadyTurn(cfg, t')
    && t.retryCount <= Budget(cfg)
    && Energy(cfg, t') < Energy(cfg, t)
  }

  /** Outside recovery, an outcome moves down: forward to a later phase, or to recovery. */
  ghost predicate MovesDown(t: Turn, o: Outcome) {
    && o.turn.retryCount == t.retryCount
    && (o.err.None? ==> o.next.Some? && Rank(t.(phase := o.next.value, lastError := o.turn.lastError)) < Rank(t))
    && (o.err.None? && o.next == Some(Executing) ==> o.turn.response.Some?)
    && (o.err.None? ==> o.next != Some(Recovering))
    && (o.err.Some? && o.err.value.Is(EmptyResponse) ==> t.phase == Inference)
  }

  lemma MovesDownDecreases(cfg: Config, t: Turn, o: Outcome)
    requires ReadyTurn(cfg, t) && MovesDown(t, o) && t.phase != Recovering && t.phase != Complete
    ensures Decreased(cfg, t, Land(t, o))
  {
  }

  lemma {:induction false} StaysUnmarked(message: string, e: Error)
    requires !e.Is(EmptyResponse)
    ensures !PhaseError(message, e).Is(EmptyResponse)
  {
    PhaseErrorTransparent(message, e);
  }

  lemma InferMovesDown(cfg: Config, t: Turn, env: Env)
    requires t.phase == Inference && SaneEnv(env)
    ensures MovesDown(t, InferStep(cfg, t, env))
  {
    hide DetectStep, PhaseError, IsResponseEmpty, HasToolCalls;
    var called := t.(world := t.world.(gatewayCalls := t.world.gatewayCalls + 1));
    if InferenceError(env).None? {
      DetectMovesDown(cfg, called.(response := env.reply, hasToolCalls := HasToolCalls(env.reply.value)), env);
    }
  }

  lemma DetectMovesDown(cfg: Config, t: Turn, env: Env)
    requires t.response.Some?
    ensures var o := DetectStep(cfg, t, env);
      && o.turn.retryCount == t.retryCount
      && (o.err.None? ==> o.next in {Some(Executing), Some(Persisting), Some(Complete)})
      && (o.err.None? && o.next == Some(Executing) ==> o.turn.response.Some?)
  {
    hide Detect, SyntheticParts, Calls;
  }

  lemma ExecuteMovesDown(cfg: Config, t: Turn, env: Env)
    requires t.phase == Executing && t.response.Some? && SaneEnv(env)
    ensures MovesDown(t, ExecuteStep(cfg, t, env))
  {
    var o := ExecuteStep(cfg, t, env);
    if t.hasToolCalls {
      var err := env.exec(t.response.value, t.index, cfg.maxToolTurns).1;
      assert NotEmptyMarked(err);
      if err.Some? {
        StaysUnmarked("tool execution failed", err.value);
        assert o.err == Some(PhaseError("tool execution failed", err.value));
      }
    }
  }

  lemma PersistMovesDown(t: Turn, env: Env)
    requires t.phase == Persisting && SaneEnv(env)
    ensures MovesDown(t, PersistStep(t, env))
  {
    hide PhaseError, Error.Is;
    if env.firstAppendErr.Some? { StaysUnmarked("history error", env.firstAppendErr.value); }
    if env.secondAppendErr.Some? { StaysUnmarked("failed to persist tool results", env.secondAppendErr.value); }
  }

  lemma GuardMovesDown(cfg: Config, t: Turn, env: Env)
    requires t.phase == Guard && SaneEnv(env)
    ensures MovesDown(t, GuardStep(cfg, t, env))
  {
  }

  lemma RefineMovesDown(t: Turn, env: Env)
    requires t.phase == Refining && SaneEnv(env)
    ensures MovesDown(t, RefineStep(t, env))
  {
    if env.prepareErr.Some? { StaysUnmarked("context preparation failed", env.prepareErr.value); }
  }

  /** Recovery ends the turn, spends a retry, or accepts an empty response. */
  ghost predicate Recovers(cfg: Config, t: Turn, o: Outcome) {
    && t.retryCount <= o.turn.retryCount <= Budget(cfg)
    && (o.err.None? ==>
          || o.next == Some(Complete)
          || (o.next == Some(Refining) && o.turn.retryCount == t.retryCount + 1)
          || (o.next == Some(Persisting) && o.turn == t && t.lastError.Some? && t.lastError.value.Is(EmptyResponse)))
    && (o.err.Some? ==> o.next.None? || o.next == Some(Complete))
  }

  lemma RecoverCases(cfg: Config, t: Turn, env: Env)
    requires t.retryCount <= Budget(cfg)
    ensures Recovers(cfg, t, RecoverStep(cfg, t, env))
  {
    hide Classify, Error.IsTransient;
  }

  lemma RecoverDecreases(cfg: Config, t: Turn, o: Outcome)
    requires ReadyTurn(cfg, t) && t.phase == Recovering && Recovers(cfg, t, o)
    ensures Decreased(cfg, t, Land(t, o))
  {
  }

  lemma PhaseDecreases(cfg: Config, t: Turn, env: Env)
    requires ReadyTurn(cfg, t) && t.phase != Complete && SaneEnv(env)
    ensures Decreased(cfg, t, ExecutePhase(cfg, t, env).0)
  {
    match t.phase
    case Guard => GuardMovesDown(cfg, t, env); MovesDownDecreases(cfg, t, GuardStep(cfg, t, env));
    case Refining => RefineMovesDown(t, env); MovesDownDecreases(cfg, t, RefineStep(t, env));
    case Inference => InferMovesDown(cfg, t, env); MovesDownDecreases(cfg, t, InferStep(cfg, t, env));
    case Executing => ExecuteMovesDown(cfg, t, env); MovesDownDecreases(cfg, t, ExecuteStep(cfg, t, env));
    case Persisting => PersistMovesDown(t, env); MovesDownDecreases(cfg, t, PersistStep(t, env));
    case Recovering => RecoverCases(cfg, t, env); RecoverDecreases(cfg, t, RecoverStep(cfg, t, env));
  }

  /** What a phase loop ends with: the turn, its error, the number of phases it ran, and
      the next unused environment. */
  datatype LoopEnd = LoopEnd(turn: Turn, err: Option<Error>, phases: nat, next: nat)

  ghost function PhaseLoop(cfg: Config, t: Turn, oracle: nat -> Env, k: nat): LoopEnd
    requires ReadyTurn(cfg, t) && Sane(oracle)
    decreases Energy(cfg, t)
  {
    if t.phase == Complete then LoopEnd(t, None, 0, k)
    else
      PhaseDecreases(cfg, t, oracle(k));
      var (t', err) := ExecutePhase(cfg, t, oracle(k));
      if err.Some? && t'.phase == Complete then LoopEnd(EmergencySave(t', oracle(k + 1)), err, 1, k + 2)
      else
        var end := PhaseLoop(cfg, t', oracle, k + 1);
        end.(phases := end.phases + 1)
  }

  predicate ShouldStopRunning(t: Turn) { !t.hasToolCalls }

  datatype RunEnd = RunEnd(world: World, err: Option<Error>, turns: nat)

  /** Past the turn limit a turn ends with an error, before any call of the gateway. */
  lemma {:induction false} GuardStops(cfg: Config, t: Turn, oracle: nat -> Env, k: nat)
    requires ReadyTurn(cfg, t) && Sane(oracle) && t.phase == Guard && t.index > cfg.maxToolTurns
    requires t.response.None? && t.toolResponse.None?
    ensures PhaseLoop(cfg, t, oracle, k).err.Some?
    ensures PhaseLoop(cfg, t, oracle, k).turn.world.history == t.world.history
    ensures PhaseLoop(cfg, t, oracle, k).turn.world.gatewayCalls == t.world.gatewayCalls
  {
    GuardFails(cfg, t, oracle(k));
    PhaseDecreases(cfg, t, oracle(k));
    var t' := ExecutePhase(cfg, t, oracle(k)).0;
    FatalEnds(cfg, t', oracle(k + 1));
    PhaseDecreases(cfg, t', oracle(k + 1));
  }

  lemma GuardFails(cfg: Config, t: Turn, env: Env)
    requires ReadyTurn(cfg, t) && t.phase == Guard && t.index > cfg.maxToolTurns && SaneEnv(env)
    ensures var (t', err) := ExecutePhase(cfg, t, env);
      && err.Some? && HopelessError(err.value)
      && t' == t.(phase := Recovering, lastError := err)
  {
    GuardErrorFatal(cfg, t, env);
  }

  lemma GuardErrorFatal(cfg: Config, t: Turn, env: Env)
    requires t.index > cfg.maxToolTurns && SaneEnv(env)
    ensures var e := GuardStep(cfg, t, env).err; e.Some? && HopelessError(e.value)
  {
    var limit := Base(MaxTurnsReached);
    var e := Agent(Base(Terminal), "turn exceeds limit", Some(limit));
    forall s: Sentinel ensures e.Is(s) == (s == Terminal || s == MaxTurnsReached) {
      assert Base(Terminal).Is(s) == (s == Terminal) && limit.Is(s) == (s == MaxTurnsReached);
    }
    if env.ctxErr.Some? {
      var c := env.ctxErr.value;
      forall s: Sentinel ensures c.Is(s) ==> s == Canceled || s == DeadlineExceeded {
        assert c.Is(s) == (c.sentinel == s);
      }
    }
  }

  /** Errors that recovery never retries. */
  predicate HopelessError(e: Error) {
    !e.Is(EmptyResponse) && !e.IsTransient() && !e.Is(ContextLimitExceeded) && !e.Is(BudgetExceeded)
  }

  /** Such an error ends the turn at once, changing nothing but the phase. */
  lemma FatalEnds(cfg: Config, t: Turn, env: Env)
    requires ReadyTurn(cfg, t) && t.phase == Recovering && HopelessError(t.lastError.value)
    ensures ExecutePhase(cfg, t, env) == (t.(phase := Complete), t.lastError)
  {
  }

  ghost function RunLoop(cfg: Config, index: int, world: World, oracle: nat -> Env, k: nat): RunEnd
    requires Sane(oracle) && index <= Over(cfg)
    decreases Over(cfg) - index
  {
    var end := PhaseLoop(cfg, FreshTurn(index, world), oracle, k);
    if end.err.Some? || ShouldStopRunning(end.turn) then RunEnd(end.turn.world, end.err, 1)
    else
      assert index <= cfg.maxToolTurns by {
        if index > cfg.maxToolTurns { GuardStops(cfg, FreshTurn(index, world), oracle, k); }
      }
      var rest := RunLoop(cfg, index + 1, end.turn.world, oracle, end.next);
      rest.(turns := rest.turns + 1)
  }

  /** The first index past the limit, or 0 when no turn is allowed. */
  function Over(cfg: Config): int { if cfg.maxToolTurns < 0 then 0 else cfg.maxToolTurns + 1 }
}
