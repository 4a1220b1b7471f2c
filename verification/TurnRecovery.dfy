/** What recovery does with an error, told by the error's answers to errors.Is, and what a
    turn makes of failing attempts. */
module TurnRecovery {
  import opened Llm
  import opened LoopDetection
  import opened TurnSpec
  import opened PlanTheorems
  import opened TurnProofs

  // ---------------------------------------------------------------- one recovery

  /** The provider refused the caller or the content. */
  predicate Refused(e: Error) { !e.Is(RateLimit) && (e.Is(Auth) || e.Is(ContentFilter)) }

  predicate Overflowed(e: Error) {
    !e.Is(RateLimit) && !e.Is(Auth) && !e.Is(ContentFilter) && (e.Is(ContextLimitExceeded) || e.Is(BudgetExceeded))
  }

  predicate TimesOut(e: Error) {
    && !e.Is(RateLimit) && !Refused(e) && !Overflowed(e)
    && (e.Is(DeadlineExceeded) || e.FirstTimeout() == Some(true))
  }

  /** Nothing in the chain is final. */
  predicate NothingFinal(e: Error) {
    && !e.Is(Terminal) && !e.Is(BudgetExceeded) && !e.Is(MaxTurnsReached)
    && !e.Is(ContextLimitExceeded) && !e.Is(ContentFilter) && !e.Is(Auth) && !e.Is(Logic)
  }

  /** Which errors are tried again after `attempt` retries: an empty response three times; a
      first overflow, with a new context; a passing error as often as configured. */
  predicate TriedAgain(maxRetries: int, e: Error, attempt: nat) {
    if e.Is(EmptyResponse) then attempt < 3
    else
      || (Overflowed(e) && attempt == 0)
      || ((e.Is(Transient) || e.Is(RateLimit)) && NothingFinal(e) && attempt < maxRetries)
  }

  lemma RefusedIsFinal(e: Error)
    requires Refused(e)
    ensures !NothingFinal(e) && !Overflowed(e)
  {
  }

  lemma {:induction false} ClassifyIs(e: Error)
    ensures Classify(e) == RateLimited <==> e.Is(RateLimit)
    ensures Classify(e) == AuthFailure <==> Refused(e)
    ensures Classify(e) == ContextOverflow <==> Overflowed(e)
    ensures Classify(e) == TimedOut <==> TimesOut(e)
  {
    hide Error.Is, Error.FirstTimeout;
  }

  lemma {:induction false} FatalIs(e: Error)
    ensures e.IsFatal() <==> !NothingFinal(e)
    ensures e.IsTransient() <==> e.Is(Transient) || e.Is(RateLimit)
  {
    hide Error.Is;
  }

  /** Recovery from an error, exactly: another attempt, which waits for the bus and the context;
      the empty response accepted; or the end of the turn with the same error. The messages
      stay, and the rate limit is noted when it was the cause. */
  ghost predicate RecoversAs(cfg: Config, t: Turn, env: Env, o: Outcome)
    requires t.lastError.Some?
  {
    var e := t.lastError.value;
    && o.turn.world.history == t.world.history && o.turn.world.gatewayCalls == t.world.gatewayCalls
    && o.turn.world.detector == t.world.detector && o.turn.world.executed == t.world.executed
    && o.turn.response == t.response && o.turn.toolResponse == t.toolResponse && o.turn.index == t.index
    && o.turn.hasToolCalls == t.hasToolCalls
    && o.turn.world.rateLimited == (t.world.rateLimited || (!e.Is(EmptyResponse) && e.Is(RateLimit)))
    && o.turn.recoveryFromOverflow ==
         (t.recoveryFromOverflow || (!e.Is(EmptyResponse) && Overflowed(e) && t.retryCount == 0))
    && if TriedAgain(cfg.maxRetries, e, t.retryCount) then
         && o.turn.retryCount == t.retryCount + 1
         && if !e.Is(EmptyResponse) && Overflowed(e) && t.retryCount == 0 then o.err.None? && o.next == Some(Refining)
            else if env.publishErr.Some? then o.err == env.publishErr
            else if env.ctxErr.Some? then o.err == env.ctxErr
            else o.err.None? && o.next == Some(Refining)
       else
         && o.turn.retryCount == t.retryCount
         && if e.Is(EmptyResponse) then o.err.None? && o.next == Some(Persisting)
            else o.next == Some(Complete) && o.err.Some? && forall s: Sentinel :: o.err.value.Is(s) <==> e.Is(s)
  }

  lemma {:induction false} RecoveryExactly(cfg: Config, t: Turn, env: Env)
    requires t.lastError.Some?
    ensures RecoversAs(cfg, t, env, RecoverStep(cfg, t, env))
  {
    hide Classify, Error.Is, Error.IsFatal, Error.IsTransient;
    var e := t.lastError.value;
    ClassifyIs(e);
    FatalIs(e);
    WrapIs("max retries reached", e);
  }

  lemma {:induction false} WrapIs(message: string, e: Error)
    ensures forall s: Sentinel :: Wrap(message, e).Is(s) <==> e.Is(s)
  {
  }

  /** Publishing and context fine: exactly which errors lead to one more attempt. */
  lemma {:induction false} RetriesExactly(cfg: Config, t: Turn, env: Env)
    requires t.lastError.Some? && env.publishErr.None? && env.ctxErr.None?
    ensures var o := RecoverStep(cfg, t, env);
      (o.err.None? && o.next == Some(Refining) && o.turn.retryCount == t.retryCount + 1) <==>
        TriedAgain(cfg.maxRetries, t.lastError.value, t.retryCount)
  {
    hide RecoverStep, TriedAgain, Error.Is;
    RecoveryExactly(cfg, t, env);
  }

  // ---------------------------------------------------------------- before the gateway

  /** The guard passes exactly below the limit with a living context and a bus that takes its
      event; it fails with the context's error first, then the limit's, then the bus's. */
  lemma {:induction false} GuardExactly(cfg: Config, t: Turn, env: Env)
    ensures var o := GuardStep(cfg, t, env);
      && o.turn == t
      && (o.err.None? <==> env.ctxErr.None? && t.index <= cfg.maxToolTurns && env.publishErr.None?)
      && (o.err.None? ==> o.next == Some(Refining))
      && (env.ctxErr.Some? ==> o.err == env.ctxErr)
      && (env.ctxErr.None? && t.index > cfg.maxToolTurns ==> o.err.value.Is(MaxTurnsReached))
      && (env.ctxErr.None? && t.index <= cfg.maxToolTurns && env.publishErr.Some? ==> o.err == env.publishErr)
  {
    var limit := Base(MaxTurnsReached);
    assert limit.Is(MaxTurnsReached);
  }

  /** A context that cannot be prepared fails the phase with its error; nothing is asked. */
  lemma {:induction false} RefineExactly(t: Turn, env: Env)
    ensures var o := RefineStep(t, env);
      && o.turn == t
      && (env.prepareErr.None? ==> o.err.None? && o.next == Some(Inference))
      && (env.prepareErr.Some? ==> o.err.Some? && forall s: Sentinel | env.prepareErr.value.Is(s) :: o.err.value.Is(s))
  {
    if env.prepareErr.Some? {
      var e := env.prepareErr.value;
      var w := PhaseError("context preparation failed", e);
      assert forall s: Sentinel :: e.Is(s) ==> w.Is(s);
    }
  }

  // ---------------------------------------------------------------- attempts

  lemma {:induction false} Goes(cfg: Config, t: Turn, oracle: nat -> Env, k: nat)
    requires ReadyTurn(cfg, t) && t.phase != Complete && Sane(oracle)
    requires var (u, err) := ExecutePhase(cfg, t, oracle(k)); !(err.Some? && u.phase == Complete)
    ensures var u := ExecutePhase(cfg, t, oracle(k)).0;
      ReadyTurn(cfg, u) && SameEnd(PhaseLoop(cfg, t, oracle, k), PhaseLoop(cfg, u, oracle, k + 1))
  {
    PhaseDecreases(cfg, t, oracle(k));
  }

  predicate SameEnd(a: LoopEnd, b: LoopEnd) { a.turn == b.turn && a.err == b.err && a.next == b.next }

  /** The error of an inference: the gateway's own; a missing reply, a logic error; or a reply
      of empty parts, a passing one with the mark of an empty response. */
  lemma {:induction false} InferenceErrorExactly(env: Env)
    ensures env.replyErr.Some? ==> InferenceError(env) == env.replyErr
    ensures env.replyErr.None? && env.reply.None? ==>
      InferenceError(env).Some? && InferenceError(env).value.Is(Logic) && !InferenceError(env).value.Is(EmptyResponse)
    ensures env.replyErr.None? && env.reply.Some? && (forall p | p in env.reply.value.parts :: p.IsEmpty()) ==>
      InferenceError(env).Some? && InferenceError(env).value.Is(EmptyResponse)
    ensures env.replyErr.None? && env.reply.Some? && (exists p | p in env.reply.value.parts :: !p.IsEmpty()) ==>
      InferenceError(env).None?
  {
    assert forall s: Sentinel :: NIL_CONTENT.Is(s) <==> NIL_CONTENT.category.Is(s);
    assert EMPTY_CONTENT.cause.value.Is(EmptyResponse);
  }

  lemma {:induction false} WrappedTriedAgain(maxRetries: int, message: string, e: Error, attempt: nat)
    ensures TriedAgain(maxRetries, PhaseError(message, e), attempt) == TriedAgain(maxRetries, e, attempt)
    ensures PhaseError(message, e).Is(EmptyResponse) == e.Is(EmptyResponse)
  {
    var w := PhaseError(message, e);
    var added := if e.IsTransient() then Transient else Terminal;
    forall s: Sentinel ensures w.Is(s) <==> s == added || e.Is(s) {
      assert w.category.Is(s) <==> s == added;
    }
    hide Error.Is;
    FatalIs(e);
  }

  /** An attempt that fails with e, and is tried again: three phases from Refining. */
  predicate FailingAttempt(cfg: Config, oracle: nat -> Env, k: nat, e: Error, attempt: nat) {
    && oracle(k).prepareErr.None? && InferenceError(oracle(k + 1)) == Some(e)
    && oracle(k + 2).publishErr.None? && oracle(k + 2).ctxErr.None?
    && TriedAgain(cfg.maxRetries, e, attempt)
  }

  /** What failed attempts leave: their number, and no message. */
  predicate Attempted(t: Turn, u: Turn, n: nat) {
    && u.phase == t.phase && u.index == t.index && u.retryCount == t.retryCount + n && u.toolResponse == t.toolResponse
    && u.world.history == t.world.history && u.world.detector == t.world.detector
    && u.world.executed == t.world.executed && u.world.gatewayCalls == t.world.gatewayCalls + n
  }

  lemma {:induction false} FailedInference(cfg: Config, t: Turn, env: Env, e: Error)
    requires InferenceError(env) == Some(e)
    ensures var o := InferStep(cfg, t, env);
      && o.err == Some(PhaseError("inference failed", e))
      && o.turn == t.(response := o.turn.response, hasToolCalls := o.turn.hasToolCalls,
                      world := t.world.(gatewayCalls := t.world.gatewayCalls + 1))
      && (env.reply.Some? ==> o.turn.response == env.reply && o.turn.hasToolCalls == HasToolCalls(env.reply.value))
  {
    hide PhaseError, InferenceError, HasToolCalls, DetectStep;
  }

  lemma {:induction false} RefiningGoes(cfg: Config, t: Turn, oracle: nat -> Env, k: nat)
    requires ReadyTurn(cfg, t) && Sane(oracle) && t.phase == Refining && oracle(k).prepareErr.None?
    ensures var u := t.(phase := Inference);
      ReadyTurn(cfg, u) && SameEnd(PhaseLoop(cfg, t, oracle, k), PhaseLoop(cfg, u, oracle, k + 1))
  {
    Goes(cfg, t, oracle, k);
  }

  /** The turn at Recovering, after an inference that failed with e. */
  lemma {:induction false} FailureGoes(cfg: Config, t: Turn, oracle: nat -> Env, k: nat, e: Error) returns (u: Turn)
    requires ReadyTurn(cfg, t) && Sane(oracle) && t.phase == Refining && oracle(k).prepareErr.None?
    requires InferenceError(oracle(k + 1)) == Some(e)
    ensures ReadyTurn(cfg, u) && SameEnd(PhaseLoop(cfg, t, oracle, k), PhaseLoop(cfg, u, oracle, k + 2))
    ensures u.phase == Recovering && u.lastError == Some(PhaseError("inference failed", e))
    ensures Attempted(t.(phase := Recovering, retryCount := 0), u.(retryCount := 1), 1) && u.retryCount == t.retryCount
    ensures var reply := oracle(k + 1).reply;
      reply.Some? ==> u.response == reply && u.hasToolCalls == HasToolCalls(reply.value)
  {
    hide PhaseLoop, InferenceError, InferStep, PhaseError;
    RefiningGoes(cfg, t, oracle, k);
    var v := t.(phase := Inference);
    FailedInference(cfg, v, oracle(k + 1), e);
    Goes(cfg, v, oracle, k + 1);
    u := ExecutePhase(cfg, v, oracle(k + 1)).0;
  }

  lemma {:induction false} AttemptGoes(cfg: Config, t: Turn, oracle: nat -> Env, k: nat, e: Error) returns (u: Turn)
    requires ReadyTurn(cfg, t) && Sane(oracle) && t.phase == Refining
    requires FailingAttempt(cfg, oracle, k, e, t.retryCount)
    ensures ReadyTurn(cfg, u) && SameEnd(PhaseLoop(cfg, t, oracle, k), PhaseLoop(cfg, u, oracle, k + 3))
    ensures Attempted(t, u, 1)
  {
    hide PhaseLoop, InferenceError, RecoverStep, TriedAgain, PhaseError;
    var v := FailureGoes(cfg, t, oracle, k, e);
    WrappedTriedAgain(cfg.maxRetries, "inference failed", e, t.retryCount);
    RecoveryExactly(cfg, v, oracle(k + 2));
    RetriesExactly(cfg, v, oracle(k + 2));
    Goes(cfg, v, oracle, k + 2);
    u := ExecutePhase(cfg, v, oracle(k + 2)).0;
  }

  /** n failing attempts in a row, each of which is tried again. */
  predicate FailingAttempts(cfg: Config, oracle: nat -> Env, k: nat, errs: seq<Error>) {
    forall i | 0 <= i < |errs| :: FailingAttempt(cfg, oracle, k + 3 * i, errs[i], i)
  }

  lemma {:induction false} AttemptsGo(cfg: Config, t: Turn, oracle: nat -> Env, k: nat, errs: seq<Error>)
      returns (u: Turn)
    requires ReadyTurn(cfg, t) && Sane(oracle) && t.phase == Refining && t.retryCount == 0
    requires FailingAttempts(cfg, oracle, k, errs)
    ensures ReadyTurn(cfg, u) && SameEnd(PhaseLoop(cfg, t, oracle, k), PhaseLoop(cfg, u, oracle, k + 3 * |errs|))
    ensures Attempted(t, u, |errs|)
  {
    hide PhaseLoop, FailingAttempt;
    if errs == [] {
      u := t;
    } else {
      var n := |errs| - 1;
      assert FailingAttempts(cfg, oracle, k, errs[..n]);
      var v := AttemptsGo(cfg, t, oracle, k, errs[..n]);
      assert FailingAttempt(cfg, oracle, k + 3 * n, errs[n], n);
      u := AttemptGoes(cfg, v, oracle, k + 3 * n, errs[n]);
    }
  }

  // ---------------------------------------------------------------- the attempt that answers

  /** The gateway answers r, which says something, and no loop is detected. */
  predicate Answering(cfg: Config, detector: Detector, env: Env, r: Content) {
    && env.replyErr.None? && env.reply == Some(r) && (exists p | p in r.parts :: !p.IsEmpty())
    && (cfg.hasBus ==> !Detect(detector, r).1)
  }

  lemma {:induction false} AnsweringInference(cfg: Config, t: Turn, env: Env, r: Content)
    requires Answering(cfg, t.world.detector, env, r)
    ensures var o := InferStep(cfg, t, env);
      && o.err.None? && o.next == Some(if Calls(r) != [] then Executing else Persisting)
      && o.turn == t.(response := Some(r), hasToolCalls := Calls(r) != [],
                      world := t.world.(gatewayCalls := t.world.gatewayCalls + 1, detector := o.turn.world.detector))
  {
    hide Detect, LoopBreak, Calls;
    InferenceErrorExactly(env);
    HasToolCallsIff(r);
  }

  /** The turn behind an inference that answers r. */
  lemma {:induction false} AnswerGoes(cfg: Config, t: Turn, oracle: nat -> Env, k: nat, r: Content) returns (u: Turn)
    requires ReadyTurn(cfg, t) && Sane(oracle) && t.phase == Refining && oracle(k).prepareErr.None?
    requires Answering(cfg, t.world.detector, oracle(k + 1), r)
    ensures ReadyTurn(cfg, u) && SameEnd(PhaseLoop(cfg, t, oracle, k), PhaseLoop(cfg, u, oracle, k + 2))
    ensures u == t.(phase := if Calls(r) != [] then Executing else Persisting, response := Some(r),
                    hasToolCalls := Calls(r) != [],
                    world := t.world.(gatewayCalls := t.world.gatewayCalls + 1, detector := u.world.detector))
  {
    hide PhaseLoop, InferStep, Answering, Calls;
    RefiningGoes(cfg, t, oracle, k);
    var v := t.(phase := Inference);
    AnsweringInference(cfg, v, oracle(k + 1), r);
    Goes(cfg, v, oracle, k + 1);
    u := ExecutePhase(cfg, v, oracle(k + 1)).0;
  }

  /** Persisting what a turn holds, with both appends fine, ends it. */
  lemma {:induction false} PersistingEnds(cfg: Config, t: Turn, oracle: nat -> Env, k: nat)
    requires ReadyTurn(cfg, t) && Sane(oracle) && t.phase == Persisting && t.response.Some?
    requires oracle(k).firstAppendErr.None? && (t.toolResponse.Some? ==> oracle(k).secondAppendErr.None?)
    ensures var end := PhaseLoop(cfg, t, oracle, k);
      && end.err.None? && end.next == k + 1 && end.turn.hasToolCalls == t.hasToolCalls
      && end.turn.world == t.world.(history := t.world.history + Pending(t))
  {
    hide EmergencySave;
    PersistConserves(t, oracle(k));
    Goes(cfg, t, oracle, k);
    assert t.world.history + Pending(t) == t.world.history + Listed(t.response) + Listed(t.toolResponse);
    assert t.world.history + Listed(t.response) + [] == t.world.history + Listed(t.response);
  }

  lemma {:induction false} ExecutingGoes(cfg: Config, t: Turn, oracle: nat -> Env, k: nat) returns (u: Turn)
    requires ReadyTurn(cfg, t) && Dispatched(oracle) && t.phase == Executing && t.hasToolCalls && t.toolResponse.None?
    requires Calls(t.response.value) != [] && oracle(k).exec(t.response.value, t.index, cfg.maxToolTurns).1.None?
    ensures ReadyTurn(cfg, u) && SameEnd(PhaseLoop(cfg, t, oracle, k), PhaseLoop(cfg, u, oracle, k + 1))
    ensures u.phase == Persisting && u.response == t.response && Paired(t.response.value, u.toolResponse)
    ensures u.hasToolCalls
      && u.world == t.world.(executed := t.world.executed + [t.response.value])
  {
    hide PhaseLoop, Calls, Paired, Truncate;
    assert DispatcherEnv(oracle(k));
    DispatcherAnswers(cfg, t, oracle(k));
    Goes(cfg, t, oracle, k);
    u := ExecutePhase(cfg, t, oracle(k)).0;
  }

  /** A turn in which the attempts fail as given and the next one answers. */
  predicate FailsThenAnswers(cfg: Config, t: Turn, oracle: nat -> Env, k: nat, errs: seq<Error>, r: Content) {
    var last := k + 1 + 3 * |errs|;
    && t.index <= cfg.maxToolTurns && oracle(k).ctxErr.None? && oracle(k).publishErr.None?
    && FailingAttempts(cfg, oracle, k + 1, errs)
    && oracle(last).prepareErr.None? && Answering(cfg, t.world.detector, oracle(last + 1), r)
  }

  lemma {:induction false} GuardGoes(cfg: Config, index: int, world: World, oracle: nat -> Env, k: nat)
    requires Sane(oracle) && index <= cfg.maxToolTurns && oracle(k).ctxErr.None? && oracle(k).publishErr.None?
    ensures var (t, u) := (FreshTurn(index, world), FreshTurn(index, world).(phase := Refining));
      SameEnd(PhaseLoop(cfg, t, oracle, k), PhaseLoop(cfg, u, oracle, k + 1))
  {
    Goes(cfg, FreshTurn(index, world), oracle, k);
  }

  lemma {:induction false} AttemptsThenAnswer(cfg: Config, index: int, world: World, oracle: nat -> Env, k: nat,
          errs: seq<Error>, r: Content) returns (u: Turn)
    requires Sane(oracle) && FailsThenAnswers(cfg, FreshTurn(index, world), oracle, k, errs, r)
    ensures ReadyTurn(cfg, u)
    ensures SameEnd(PhaseLoop(cfg, FreshTurn(index, world), oracle, k),
              PhaseLoop(cfg, u, oracle, k + 3 + 3 * |errs|))
    ensures u.phase == (if Calls(r) != [] then Executing else Persisting) && u.hasToolCalls == (Calls(r) != [])
    ensures u.response == Some(r) && u.toolResponse.None? && u.index == index
    ensures u.world == world.(gatewayCalls := world.gatewayCalls + |errs| + 1, detector := u.world.detector,
                              rateLimited := u.world.rateLimited)
  {
    hide PhaseLoop, FailingAttempts, Answering, Calls;
    GuardGoes(cfg, index, world, oracle, k);
    var t := FreshTurn(index, world).(phase := Refining);
    var v := AttemptsGo(cfg, t, oracle, k + 1, errs);
    u := AnswerGoes(cfg, v, oracle, k + 1 + 3 * |errs|, r);
  }

  /** However often the gateway fails with errors that are tried again, and then answers in
      text, the turn ends without error with that answer saved, after one gateway call for
      each attempt, and the run stops. */
  lemma {:induction false} RetriedTurnAnswers(cfg: Config, index: int, world: World, oracle: nat -> Env, k: nat,
          errs: seq<Error>, r: Content)
    requires Sane(oracle) && FailsThenAnswers(cfg, FreshTurn(index, world), oracle, k, errs, r)
    requires Calls(r) == [] && oracle(k + 3 + 3 * |errs|).firstAppendErr.None?
    ensures var end := PhaseLoop(cfg, FreshTurn(index, world), oracle, k);
      && end.err.None? && ShouldStopRunning(end.turn)
      && end.turn.world.history == world.history + [r] && end.turn.world.executed == world.executed
      && end.turn.world.gatewayCalls == world.gatewayCalls + |errs| + 1
  {
    hide PhaseLoop, FailsThenAnswers, Calls;
    var u := AttemptsThenAnswer(cfg, index, world, oracle, k, errs, r);
    PersistingEnds(cfg, u, oracle, k + 3 + 3 * |errs|);
  }

  /** The same for an answer with tool calls: it is saved with the message that answers them,
      and the run goes on. */
  lemma {:induction false} RetriedTurnExecutes(cfg: Config, index: int, world: World, oracle: nat -> Env, k: nat,
          errs: seq<Error>, r: Content)
    requires Dispatched(oracle) && FailsThenAnswers(cfg, FreshTurn(index, world), oracle, k, errs, r)
    requires Calls(r) != [] && oracle(k + 3 + 3 * |errs|).exec(r, index, cfg.maxToolTurns).1.None?
    requires oracle(k + 4 + 3 * |errs|).firstAppendErr.None? && oracle(k + 4 + 3 * |errs|).secondAppendErr.None?
    ensures var end := PhaseLoop(cfg, FreshTurn(index, world), oracle, k);
      && end.err.None? && !ShouldStopRunning(end.turn)
      && (exists m :: end.turn.world.history == world.history + [r, m] && Answers(m, r))
      && end.turn.world.executed == world.executed + [r]
      && end.turn.world.gatewayCalls == world.gatewayCalls + |errs| + 1
  {
    hide PhaseLoop, FailsThenAnswers, Calls, Answers;
    var u := AttemptsThenAnswer(cfg, index, world, oracle, k, errs, r);
    var v := ExecutingGoes(cfg, u, oracle, k + 3 + 3 * |errs|);
    PersistingEnds(cfg, v, oracle, k + 4 + 3 * |errs|);
    assert Pending(v) == [r, v.toolResponse.value];
  }

  /** A gateway that fails n times with a rate limit or a passing error, n at most the configured
      retries, and then answers. */
  predicate PassingErrors(errs: seq<Error>) {
    forall i | 0 <= i < |errs| :: errs[i] == Base(RateLimit) || errs[i] == Base(Transient)
  }

  /** Everything around the gateway is fine in the attempts. */
  predicate GatewayFails(oracle: nat -> Env, k: nat, errs: seq<Error>) {
    forall i | 0 <= i < |errs| :: AttemptAt(oracle, k + 3 * i, errs[i])
  }

  predicate AttemptAt(oracle: nat -> Env, k: nat, e: Error) {
    && oracle(k).prepareErr.None? && oracle(k + 1).replyErr == Some(e)
    && oracle(k + 2).publishErr.None? && oracle(k + 2).ctxErr.None?
  }

  lemma {:induction false} PassingIsTriedAgain(maxRetries: int, e: Error, attempt: nat)
    requires (e == Base(RateLimit) || e == Base(Transient)) && attempt < maxRetries
    ensures TriedAgain(maxRetries, e, attempt)
  {
    assert forall s: Sentinel :: e.Is(s) <==> s == e.sentinel;
  }

  lemma {:induction false} PassingAttempts(cfg: Config, oracle: nat -> Env, k: nat, errs: seq<Error>)
    requires PassingErrors(errs) && |errs| <= cfg.maxRetries && GatewayFails(oracle, k, errs)
    ensures FailingAttempts(cfg, oracle, k, errs)
  {
    hide TriedAgain;
    forall i | 0 <= i < |errs| ensures FailingAttempt(cfg, oracle, k + 3 * i, errs[i], i) {
      assert AttemptAt(oracle, k + 3 * i, errs[i]);
      PassingIsTriedAgain(cfg.maxRetries, errs[i], i);
    }
  }

  /** Rate limits and passing errors, at most as many as the configured retries, cost a turn
      nothing but gateway calls. */
  lemma {:induction false} RateLimitsAreSurvived(cfg: Config, index: int, world: World, oracle: nat -> Env, k: nat,
          errs: seq<Error>, r: Content)
    requires Sane(oracle) && index <= cfg.maxToolTurns && oracle(k).ctxErr.None? && oracle(k).publishErr.None?
    requires PassingErrors(errs) && |errs| <= cfg.maxRetries && GatewayFails(oracle, k + 1, errs)
    requires oracle(k + 1 + 3 * |errs|).prepareErr.None? && Calls(r) == []
    requires Answering(cfg, world.detector, oracle(k + 2 + 3 * |errs|), r)
    requires oracle(k + 3 + 3 * |errs|).firstAppendErr.None?
    ensures var end := PhaseLoop(cfg, FreshTurn(index, world), oracle, k);
      && end.err.None? && end.turn.world.history == world.history + [r]
      && end.turn.world.gatewayCalls == world.gatewayCalls + |errs| + 1
  {
    hide PhaseLoop, FailingAttempts, Answering, Calls, GatewayFails;
    PassingAttempts(cfg, oracle, k + 1, errs);
    RetriedTurnAnswers(cfg, index, world, oracle, k, errs, r);
  }

  // ---------------------------------------------------------------- the attempt that is the last

  /** An error that is not tried again ends the turn with it: nothing more is asked, and all
      that is told apart by errors.Is survives. */
  lemma {:induction false} LastFailureEnds(cfg: Config, index: int, world: World, oracle: nat -> Env, k: nat,
          errs: seq<Error>, e: Error)
    requires Sane(oracle) && index <= cfg.maxToolTurns && oracle(k).ctxErr.None? && oracle(k).publishErr.None?
    requires FailingAttempts(cfg, oracle, k + 1, errs) && oracle(k + 1 + 3 * |errs|).prepareErr.None?
    requires InferenceError(oracle(k + 2 + 3 * |errs|)) == Some(e)
    requires !TriedAgain(cfg.maxRetries, e, |errs|) && !e.Is(EmptyResponse)
    ensures var end := PhaseLoop(cfg, FreshTurn(index, world), oracle, k);
      && end.err.Some? && end.turn.world.gatewayCalls == world.gatewayCalls + |errs| + 1
      && forall s: Sentinel :: end.err.value.Is(s) <==> PhaseError("inference failed", e).Is(s)
  {
    hide FailingAttempts, InferenceError, TriedAgain, PhaseError, RecoverStep, PhaseLoop;
    GuardGoes(cfg, index, world, oracle, k);
    var t := FreshTurn(index, world).(phase := Refining);
    var v := AttemptsGo(cfg, t, oracle, k + 1, errs);
    var u := FailureGoes(cfg, v, oracle, k + 1 + 3 * |errs|, e);
    WrappedTriedAgain(cfg.maxRetries, "inference failed", e, |errs|);
    RecoveryExactly(cfg, u, oracle(k + 3 + 3 * |errs|));
    RecoveringEnds(cfg, u, oracle, k + 3 + 3 * |errs|);
  }

  lemma {:induction false} RecoveringEnds(cfg: Config, t: Turn, oracle: nat -> Env, k: nat)
    requires ReadyTurn(cfg, t) && Sane(oracle) && t.phase == Recovering
    requires var o := RecoverStep(cfg, t, oracle(k)); o.err.Some? && o.next == Some(Complete)
    ensures var end := PhaseLoop(cfg, t, oracle, k);
      && end.err == RecoverStep(cfg, t, oracle(k)).err
      && end.turn.world.gatewayCalls == RecoverStep(cfg, t, oracle(k)).turn.world.gatewayCalls
  {
    hide RecoverStep;
    PhaseDecreases(cfg, t, oracle(k));
    SaveCallsNothing(ExecutePhase(cfg, t, oracle(k)).0, oracle(k + 1));
  }

  lemma {:induction false} SaveCallsNothing(t: Turn, env: Env)
    ensures EmergencySave(t, env).world.gatewayCalls == t.world.gatewayCalls
  {
  }

  /** After three empty responses the fourth is accepted: saved as it is, without an error. */
  lemma {:induction false} EmptyIsAccepted(cfg: Config, index: int, world: World, oracle: nat -> Env, k: nat,
          errs: seq<Error>, r: Content)
    requires Sane(oracle) && index <= cfg.maxToolTurns && oracle(k).ctxErr.None? && oracle(k).publishErr.None?
    requires |errs| >= 3 && FailingAttempts(cfg, oracle, k + 1, errs) && oracle(k + 1 + 3 * |errs|).prepareErr.None?
    requires oracle(k + 2 + 3 * |errs|).replyErr.None? && oracle(k + 2 + 3 * |errs|).reply == Some(r)
    requires (forall p | p in r.parts :: p.IsEmpty()) && oracle(k + 4 + 3 * |errs|).firstAppendErr.None?
    ensures var end := PhaseLoop(cfg, FreshTurn(index, world), oracle, k);
      && end.err.None? && ShouldStopRunning(end.turn) && end.turn.world.history == world.history + [r]
      && end.turn.world.gatewayCalls == world.gatewayCalls + |errs| + 1
  {
    hide FailingAttempts, TriedAgain, PhaseError, RecoverStep, PhaseLoop, InferenceError;
    var j := k + 1 + 3 * |errs|;
    GuardGoes(cfg, index, world, oracle, k);
    var t := FreshTurn(index, world).(phase := Refining);
    var v := AttemptsGo(cfg, t, oracle, k + 1, errs);
    InferenceErrorExactly(oracle(j + 1));
    var e := InferenceError(oracle(j + 1)).value;
    var u := FailureGoes(cfg, v, oracle, j, e);
    WrappedTriedAgain(cfg.maxRetries, "inference failed", e, |errs|);
    NotAgain(cfg.maxRetries, u.lastError.value, |errs|);
    EmptyCallsNothing(r);
    AcceptingEnds(cfg, u, oracle, j + 2);
    assert Pending(u) == [r];
  }

  /** Recovery that accepts an empty response, and the persisting behind it. */
  lemma {:induction false} AcceptingEnds(cfg: Config, t: Turn, oracle: nat -> Env, k: nat)
    requires ReadyTurn(cfg, t) && Sane(oracle) && t.phase == Recovering && t.response.Some? && t.toolResponse.None?
    requires t.lastError.value.Is(EmptyResponse) && !TriedAgain(cfg.maxRetries, t.lastError.value, t.retryCount)
    requires oracle(k + 1).firstAppendErr.None?
    ensures var end := PhaseLoop(cfg, t, oracle, k);
      && end.err.None? && end.turn.hasToolCalls == t.hasToolCalls
      && end.turn.world.history == t.world.history + Pending(t)
      && end.turn.world.gatewayCalls == t.world.gatewayCalls
  {
    hide TriedAgain, RecoverStep, PhaseLoop, Error.Is;
    RecoveryExactly(cfg, t, oracle(k));
    Goes(cfg, t, oracle, k);
    PersistingEnds(cfg, ExecutePhase(cfg, t, oracle(k)).0, oracle, k + 1);
  }

  lemma {:induction false} NotAgain(maxRetries: int, e: Error, attempt: nat)
    requires e.Is(EmptyResponse) && attempt >= 3
    ensures !TriedAgain(maxRetries, e, attempt)
  {
  }

  lemma {:induction false} EmptyCallsNothing(r: Content)
    requires forall p | p in r.parts :: p.IsEmpty()
    ensures !HasToolCalls(r)
  {
  }
}
