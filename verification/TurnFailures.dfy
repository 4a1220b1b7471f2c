/** Turns and runs that fail: what persisting, a loop break and the emergency save leave
    behind, and exactly when every tool call in the history is still answered. */
module TurnFailures {
  import opened Llm
  import opened LoopDetection
  import opened TurnSpec
  import opened PlanTheorems
  import opened TurnProofs

  // ---------------------------------------------------------------- a store that fails

  /** A phase that fails past hope: recovery gives up at once, and the turn is saved as it
      was left. */
  lemma {:induction false} FailsToSave(cfg: Config, t: Turn, oracle: nat -> Env, k: nat)
    requires ReadyTurn(cfg, t) && Sane(oracle) && t.phase != Complete && t.phase != Recovering
    requires var e := StepOutcome(cfg, t, oracle(k)).err; e.Some? && HopelessError(e.value)
    ensures var o := StepOutcome(cfg, t, oracle(k));
      && PhaseLoop(cfg, t, oracle, k).err == o.err
      && PhaseLoop(cfg, t, oracle, k).turn == EmergencySave(Land(t, o).(phase := Complete), oracle(k + 2))
  {
    var t' := ExecutePhase(cfg, t, oracle(k)).0;
    PhaseDecreases(cfg, t, oracle(k));
    FatalEnds(cfg, t', oracle(k + 1));
    PhaseDecreases(cfg, t', oracle(k + 1));
  }

  /** Which appends of the two passes over a turn's messages must succeed: the pass of the
      phase, and the save's, which is entered only for a message with parts. */
  predicate BothSaved(t: Turn, phase: Env, save: Env) {
    if t.response.Some? && phase.firstAppendErr.Some? then
      && (HasParts(t.response) || HasParts(t.toolResponse))
      && save.firstAppendErr.None? && (t.toolResponse.Some? ==> save.secondAppendErr.None?)
    else if t.toolResponse.Some? && phase.secondAppendErr.Some? then
      HasParts(t.toolResponse) && save.secondAppendErr.None?
    else true
  }

  lemma SavedByPasses(t: Turn, phase: Env, save: Env)
    ensures var o := PersistStep(t, phase);
      BothSaved(t, phase, save) <==>
        || o.err.None?
        || ((HasParts(o.turn.response) || HasParts(o.turn.toolResponse)) && PersistStep(o.turn, save).err.None?)
  {
    hide PhaseError;
  }

  /** From Persisting to the end of the turn, for any failures of the store: nothing is lost,
      repeated or reordered, and everything is saved exactly when the needed appends of the
      phase and of the save succeeded. */
  lemma PersistRun(cfg: Config, t: Turn, oracle: nat -> Env, k: nat)
    requires ReadyTurn(cfg, t) && Sane(oracle) && t.phase == Persisting
    ensures var end := PhaseLoop(cfg, t, oracle, k).turn;
      && end.world.history + Pending(end) == t.world.history + Pending(t)
      && (end.world.history == t.world.history + Pending(t) <==> BothSaved(t, oracle(k), oracle(k + 2)))
  {
    hide PersistStep, HasParts, EmergencySave, ContextError, BothSaved;
    assert SaneEnv(oracle(k));
    var o := PersistStep(t, oracle(k));
    PersistThenSave(t, oracle(k), oracle(k + 2));
    SavedByPasses(t, oracle(k), oracle(k + 2));
    if o.err.Some? {
      PersistFailsHopeless(t, oracle(k));
      FailsToSave(cfg, t, oracle, k);
      SaveLooksAtMessages(o.turn, Land(t, o).(phase := Complete), oracle(k + 2));
    } else {
      PhaseDecreases(cfg, t, oracle(k));
      PersistCompletes(t, oracle(k));
    }
  }

  lemma PersistCompletes(t: Turn, env: Env)
    requires PersistStep(t, env).err.None?
    ensures PersistStep(t, env).next == Some(Complete)
  {
  }

  lemma PersistLooksAtMessages(t: Turn, u: Turn, env: Env)
    requires t.response == u.response && t.toolResponse == u.toolResponse && t.world == u.world
    ensures var (x, y) := (PersistStep(t, env).turn, PersistStep(u, env).turn);
      x.world == y.world && x.response == y.response && x.toolResponse == y.toolResponse
  {
    hide PhaseError;
    PersistLeaves(t, env);
    PersistLeaves(u, env);
  }

  /** What the phase saves and keeps, told by the messages and the two appends. */
  lemma PersistLeaves(t: Turn, env: Env)
    ensures var (o, first, second) := (PersistStep(t, env).turn, env.firstAppendErr.None?, env.secondAppendErr.None?);
      if t.response.Some? && !first then o == t
      else
        var saved := t.world.history + Listed(t.response);
        && o.response.None?
        && o.toolResponse == (if second then None else t.toolResponse)
        && o.world == t.world.(history := if second then saved + Listed(t.toolResponse) else saved)
  {
    hide PhaseError;
    assert forall h: seq<Content> :: h + [] == h;
  }

  lemma SaveLooksAtMessages(t: Turn, u: Turn, env: Env)
    requires t.response == u.response && t.toolResponse == u.toolResponse && t.world == u.world
    ensures var (x, y) := (EmergencySave(t, env), EmergencySave(u, env));
      x.world.history == y.world.history && Pending(x) == Pending(y)
  {
    hide PersistStep;
    PersistLooksAtMessages(t, u, env);
  }

  /** The turn that the loop detector flags at Inference. */
  ghost predicate Flagged(cfg: Config, t: Turn, env: Env) {
    cfg.hasBus && InferenceError(env).None? && Detect(t.world.detector, env.reply.value).1
  }

  function AtLoopBreak(t: Turn, env: Env): Turn
    requires env.reply.Some?
  {
    t.(response := env.reply, hasToolCalls := HasToolCalls(env.reply.value),
       world := t.world.(gatewayCalls := t.world.gatewayCalls + 1,
                         detector := Detect(t.world.detector, env.reply.value).0))
  }

  lemma FlaggedBreaks(cfg: Config, t: Turn, env: Env)
    requires Flagged(cfg, t, env)
    ensures InferStep(cfg, t, env) == LoopBreak(AtLoopBreak(t, env), env)
    ensures HasParts(env.reply) && Feedback(AtLoopBreak(t, env)).Some?
  {
    hide Detect, LoopBreak, SyntheticParts;
    HasToolCallsIff(env.reply.value);
  }

  lemma LoopBreakErrorHopeless(t: Turn, env: Env)
    requires SaneEnv(env) && LoopBreak(t, env).err.Some?
    ensures HopelessError(LoopBreak(t, env).err.value)
  {
  }

  /** From Inference to the end of a turn that the detector flags: the response is in the
      history twice exactly when the feedback could not be appended and the save could append
      the response, or the feedback is the response itself. */
  lemma LoopBreakRun(cfg: Config, t: Turn, oracle: nat -> Env, k: nat)
    requires ReadyTurn(cfg, t) && Sane(oracle) && t.phase == Inference && t.toolResponse.None?
    requires Flagged(cfg, t, oracle(k))
    ensures var (end, r, broken) :=
      (PhaseLoop(cfg, t, oracle, k).turn, oracle(k).reply.value, AtLoopBreak(t, oracle(k)));
      end.world.history == t.world.history + [r, r] <==>
        || (oracle(k).firstAppendErr.None? && oracle(k).secondAppendErr.Some? && oracle(k + 2).firstAppendErr.None?)
        || (LoopBreak(broken, oracle(k)).err.None? && Feedback(broken) == Some(r))
  {
    var broken := AtLoopBreak(t, oracle(k));
    assert SaneEnv(oracle(k));
    FlaggedBreaks(cfg, t, oracle(k));
    LoopBreakThenSave(broken, oracle(k), oracle(k + 2));
    if LoopBreak(broken, oracle(k)).err.Some? {
      LoopBreakErrorHopeless(broken, oracle(k));
      FailsToSave(cfg, t, oracle, k);
    } else {
      PhaseDecreases(cfg, t, oracle(k));
      BreakCompletes(broken, oracle(k));
    }
  }

  lemma BreakCompletes(t: Turn, env: Env)
    requires LoopBreak(t, env).err.None?
    ensures LoopBreak(t, env).next == Some(Complete)
  {
  }

  // ---------------------------------------------------------------- a turn that fails

  /** What a failing turn that began with history h holds and has saved: nothing saved and no
      answers; a response and its answers; a saved response whose answers are held; a saved
      response, held as well. */
  ghost predicate Shape(h: seq<Content>, t: Turn) {
    || (t.world.history == h && t.toolResponse.None?)
    || (t.world.history == h && t.response.Some? && Calls(t.response.value) != [] &&
      Paired(t.response.value, t.toolResponse))
    || (t.response.None? && exists r ::
          t.world.history == h + [r] && Calls(r) != [] && Paired(r, t.toolResponse))
    || (t.response.Some? && t.toolResponse.None? && t.world.history == h + [t.response.value])
  }

  lemma ExecuteShape(cfg: Config, h: seq<Content>, t: Turn, env: Env)
    requires t.phase == Executing && PairInv(h, t) && DispatcherEnv(env) && ExecuteStep(cfg, t, env).err.Some?
    ensures Shape(h, Land(t, ExecuteStep(cfg, t, env)))
  {
    DispatcherAnswers(cfg, t, env);
    var r := t.response.value;
    var (reply, err) := env.exec(r, t.index, cfg.maxToolTurns);
    assert DispatcherReply(r, t.index, cfg.maxToolTurns, reply, err);
  }

  lemma PersistShape(h: seq<Content>, t: Turn, env: Env)
    requires t.phase == Persisting && PairInv(h, t) && PersistStep(t, env).err.Some?
    ensures Shape(h, Land(t, PersistStep(t, env)))
  {
    var (r, o) := (t.response.value, PersistStep(t, env));
    if env.firstAppendErr.None? {
      assert o.turn.world.history == h + [r] && Calls(r) != [] && Paired(r, o.turn.toolResponse);
    }
  }

  lemma LoopBreakShape(h: seq<Content>, t: Turn, env: Env)
    requires Clean(h, t) && t.response.Some? && LoopBreak(t, env).err.Some?
    ensures Shape(h, Land(t, LoopBreak(t, env)))
  {
  }

  lemma InferShape(cfg: Config, h: seq<Content>, t: Turn, env: Env)
    requires t.phase == Inference && Clean(h, t) && InferStep(cfg, t, env).err.Some?
    ensures Shape(h, Land(t, InferStep(cfg, t, env)))
  {
    hide LoopBreak, Detect, PhaseError;
    if InferenceError(env).None? {
      assert Flagged(cfg, t, env);
      FlaggedBreaks(cfg, t, env);
      LoopBreakShape(h, AtLoopBreak(t, env), env);
    }
  }

  /** Outside recovery, a failing phase leaves such a turn. */
  lemma PhaseShape(cfg: Config, h: seq<Content>, t: Turn, env: Env)
    requires ReadyTurn(cfg, t) && t.phase != Complete && t.phase != Recovering
    requires PairInv(h, t) && DispatcherEnv(env) && StepOutcome(cfg, t, env).err.Some?
    ensures Shape(h, Land(t, StepOutcome(cfg, t, env)))
  {
    match t.phase
    case Inference => InferShape(cfg, h, t, env);
    case Executing => ExecuteShape(cfg, h, t, env);
    case Persisting => PersistShape(h, t, env);
    case _ =>
  }

  /** Only an error leads to recovery. */
  lemma OnlyErrorsRecover(cfg: Config, t: Turn, env: Env)
    requires ReadyTurn(cfg, t) && t.phase != Complete && t.phase != Recovering && StepOutcome(cfg, t, env).err.None?
    ensures ExecutePhase(cfg, t, env).0.phase != Recovering
  {
    hide InferStep, ExecuteStep;
    match t.phase
    case Inference => InferSpends(cfg, t, env);
    case Executing => ExecuteSpends(cfg, t, env);
    case _ =>
  }

  lemma RecoverKeepsMessages(cfg: Config, t: Turn, env: Env)
    ensures var u := RecoverStep(cfg, t, env).turn;
      u.world.history == t.world.history && u.response == t.response && u.toolResponse == t.toolResponse
  {
    hide Classify, ShouldRetry, Error.Is, Error.IsTransient;
  }

  /** The turn that the failing phase loop hands to the emergency save, and the environment
      of the save. */
  ghost function Handed(cfg: Config, t: Turn, oracle: nat -> Env, k: nat): (Turn, nat)
    requires ReadyTurn(cfg, t) && Sane(oracle) && PhaseLoop(cfg, t, oracle, k).err.Some?
    decreases Energy(cfg, t)
  {
    PhaseDecreases(cfg, t, oracle(k));
    var (t', err) := ExecutePhase(cfg, t, oracle(k));
    if err.Some? && t'.phase == Complete then (t', k + 1) else Handed(cfg, t', oracle, k + 1)
  }

  lemma {:induction false} HandedShape(cfg: Config, h: seq<Content>, t: Turn, oracle: nat -> Env, k: nat)
    requires ReadyTurn(cfg, t) && Dispatched(oracle) && PairInv(h, t) && (t.phase == Recovering ==> Shape(h, t))
    requires PhaseLoop(cfg, t, oracle, k).err.Some?
    ensures var (f, s) := Handed(cfg, t, oracle, k);
      Shape(h, f) && PhaseLoop(cfg, t, oracle, k).turn == EmergencySave(f, oracle(s))
    decreases Energy(cfg, t)
  {
    hide Shape, StepOutcome, EmergencySave;
    var env := oracle(k);
    assert DispatcherEnv(env) && SaneEnv(env);
    PhaseDecreases(cfg, t, env);
    PhasePairs(cfg, h, t, env);
    var (t', err) := ExecutePhase(cfg, t, env);
    if t.phase == Recovering {
      RecoverShape(cfg, h, t, env);
    } else if err.Some? {
      PhaseShape(cfg, h, t, env);
    } else {
      OnlyErrorsRecover(cfg, t, env);
    }
    if !(err.Some? && t'.phase == Complete) { HandedShape(cfg, h, t', oracle, k + 1); }
  }

  lemma RecoverShape(cfg: Config, h: seq<Content>, t: Turn, env: Env)
    requires ReadyTurn(cfg, t) && t.phase == Recovering && Shape(h, t)
    ensures Shape(h, ExecutePhase(cfg, t, env).0)
    ensures ExecutePhase(cfg, t, env).0.phase != Recovering
    ensures ExecutePhase(cfg, t, env).1.Some? ==> ExecutePhase(cfg, t, env).0.phase == Complete
  {
    RecoverKeepsMessages(cfg, t, env);
    RecoverCases(cfg, t, env);
  }

  // ---------------------------------------------------------------- what the save leaves

  lemma AnsweredChunks(r: Content, m: Content)
    ensures AllAnswered([]) && (AllAnswered([r]) <==> Calls(r) == [])
    ensures Calls(m) == [] ==> (AllAnswered([r, m]) <==> Calls(r) == [] || Answers(m, r))
    ensures AllAnswered([r, r]) <==> Calls(r) == []
  {
    hide Answers, Calls;
    assert [r, r][1] == r && [r, m][1] == m && [r][0] == r && [r, r][0] == r && [r, m][0] == r;
  }

  lemma AnswersHaveParts(m: Content, r: Content)
    requires Answers(m, r) && Calls(r) != []
    ensures m.parts != []
  {
  }

  lemma CallsHaveParts(r: Content)
    requires Calls(r) != []
    ensures r.parts != []
  {
  }

  /** What can be told before the save: the turn that is handed over, and which of the two
      appends will fail. */
  predicate SavedAnswered(h: seq<Content>, f: Turn, env: Env) {
    if f.response.None? then f.toolResponse.None? || env.secondAppendErr.None?
    else
      || Calls(f.response.value) == []
      || (f.world.history == h && (env.firstAppendErr.Some? || (f.toolResponse.Some? && env.secondAppendErr.None?)))
  }

  /** A held response without answers. */
  lemma SaveResponse(h: seq<Content>, f: Turn, env: Env)
    requires f.response.Some? && f.toolResponse.None? && AllAnswered(h) && f.world.history == h
    ensures AllAnswered(EmergencySave(f, env).world.history) <==> SavedAnswered(h, f, env)
  {
    hide AllAnswered, Calls;
    var r := f.response.value;
    AnsweredChunks(r, r);
    AnsweredConcat(h, [r]);
    if Calls(r) != [] { CallsHaveParts(r); }
  }

  lemma SavePair(h: seq<Content>, f: Turn, env: Env)
    requires AllAnswered(h) && f.world.history == h
    requires f.response.Some? && Calls(f.response.value) != [] && Paired(f.response.value, f.toolResponse)
    ensures AllAnswered(EmergencySave(f, env).world.history) <==> SavedAnswered(h, f, env)
  {
    hide AllAnswered, Calls, Answers;
    var (r, m) := (f.response.value, f.toolResponse.value);
    AnsweredChunks(r, m);
    AnsweredConcat(h, [r]);
    AnsweredConcat(h, [r, m]);
    CallsHaveParts(r);
    assert h + [r] + [m] == h + [r, m];
  }

  lemma SaveAnswers(h: seq<Content>, f: Turn, env: Env, r: Content)
    requires AllAnswered(h) && f.world.history == h + [r]
    requires f.response.None? && Calls(r) != [] && Paired(r, f.toolResponse)
    ensures AllAnswered(EmergencySave(f, env).world.history) <==> SavedAnswered(h, f, env)
  {
    hide AllAnswered, Calls, Answers;
    var m := f.toolResponse.value;
    AnsweredChunks(r, m);
    AnsweredConcat(h, [r]);
    AnsweredConcat(h, [r, m]);
    AnswersHaveParts(m, r);
    assert h + [r] + [m] == h + [r, m];
  }

  lemma SaveTwice(h: seq<Content>, f: Turn, env: Env)
    requires AllAnswered(h) && f.response.Some? && f.toolResponse.None? && f.world.history == h + [f.response.value]
    ensures AllAnswered(EmergencySave(f, env).world.history) <==> SavedAnswered(h, f, env)
  {
    hide AllAnswered, Calls;
    var r := f.response.value;
    AnsweredChunks(r, r);
    AnsweredConcat(h, [r]);
    AnsweredConcat(h, [r, r]);
    assert h + [r] + [r] == h + [r, r];
    assert |h + [r]| != |h|;
  }

  lemma SaveExactly(h: seq<Content>, f: Turn, env: Env)
    requires AllAnswered(h) && Shape(h, f)
    ensures AllAnswered(EmergencySave(f, env).world.history) <==> SavedAnswered(h, f, env)
  {
    hide AllAnswered, SavedAnswered, Calls, Paired;
    if f.world.history == h && f.toolResponse.None? {
      if f.response.Some? { SaveResponse(h, f, env); } else { NothingToSave(h, f, env); }
    } else if f.world.history == h && f.response.Some? && Calls(f.response.value) != [] &&
      Paired(f.response.value, f.toolResponse) {
      SavePair(h, f, env);
    } else if f.response.Some? {
      SaveTwice(h, f, env);
    } else {
      var r :| f.world.history == h + [r] && Calls(r) != [] && Paired(r, f.toolResponse);
      SaveAnswers(h, f, env, r);
    }
  }

  lemma NothingToSave(h: seq<Content>, f: Turn, env: Env)
    requires f.response.None? && f.toolResponse.None? && f.world.history == h && AllAnswered(h)
    ensures AllAnswered(EmergencySave(f, env).world.history) && SavedAnswered(h, f, env)
  {
  }

  // ---------------------------------------------------------------- the phase that failed

  /** A turn at a phase that fails, and the environment of that phase. */
  datatype Failure = Failure(turn: Turn, at: nat)

  /** The last failing phase, apart from Recovering, of a phase loop that ends with an error;
      `seen` is the last one before. */
  ghost function LastFailure(cfg: Config, t: Turn, oracle: nat -> Env, k: nat, seen: Failure): Failure
    requires ReadyTurn(cfg, t) && Sane(oracle) && PhaseLoop(cfg, t, oracle, k).err.Some?
    decreases Energy(cfg, t)
  {
    PhaseDecreases(cfg, t, oracle(k));
    var (t', err) := ExecutePhase(cfg, t, oracle(k));
    var f := if t.phase != Recovering && err.Some? then Failure(t, k) else seen;
    if err.Some? && t'.phase == Complete then f else LastFailure(cfg, t', oracle, k + 1, f)
  }

  /** A phase of a turn that began with history h, and failed. */
  ghost predicate Failed(cfg: Config, h: seq<Content>, oracle: nat -> Env, f: Failure) {
    && ReadyTurn(cfg, f.turn) && f.turn.phase !in {Complete, Recovering} && PairInv(h, f.turn)
    && StepOutcome(cfg, f.turn, oracle(f.at)).err.Some?
  }

  predicate SameMessages(t: Turn, u: Turn) {
    t.world.history == u.world.history && t.response == u.response && t.toolResponse == u.toolResponse
  }

  ghost predicate LeftBy(cfg: Config, h: seq<Content>, oracle: nat -> Env, f: Failure, t: Turn) {
    Failed(cfg, h, oracle, f) && SameMessages(t, StepOutcome(cfg, f.turn, oracle(f.at)).turn)
  }

  lemma {:induction false} HandedByFailure(cfg: Config, h: seq<Content>, t: Turn, oracle: nat -> Env, k: nat,
          seen: Failure)
    requires ReadyTurn(cfg, t) && Dispatched(oracle) && PairInv(h, t) && PhaseLoop(cfg, t, oracle, k).err.Some?
    requires t.phase == Recovering ==> LeftBy(cfg, h, oracle, seen, t)
    ensures LeftBy(cfg, h, oracle, LastFailure(cfg, t, oracle, k, seen), Handed(cfg, t, oracle, k).0)
    decreases Energy(cfg, t)
  {
    hide StepOutcome, EmergencySave, PairInv;
    var env := oracle(k);
    assert DispatcherEnv(env) && SaneEnv(env);
    PhaseDecreases(cfg, t, env);
    PhasePairs(cfg, h, t, env);
    var (t', err) := ExecutePhase(cfg, t, env);
    var f := if t.phase != Recovering && err.Some? then Failure(t, k) else seen;
    if t.phase == Recovering {
      RecoverLands(cfg, t, env);
    } else if err.None? {
      OnlyErrorsRecover(cfg, t, env);
    }
    if !(err.Some? && t'.phase == Complete) { HandedByFailure(cfg, h, t', oracle, k + 1, f); }
  }

  lemma RecoverLands(cfg: Config, t: Turn, env: Env)
    requires ReadyTurn(cfg, t) && t.phase == Recovering
    ensures var (t', err) := ExecutePhase(cfg, t, env);
      SameMessages(t', t) && t'.phase != Recovering && (err.Some? ==> t'.phase == Complete)
  {
    RecoverKeepsMessages(cfg, t, env);
    RecoverCases(cfg, t, env);
  }

  // ---------------------------------------------------------------- what the save leaves, by phase

  predicate Asks(c: Option<Content>) { c.Some? && Calls(c.value) != [] }

  /** Told by the phase that failed and by the two appends of that phase and of the save. The
      response of a failed inference is the reply, or an earlier one if there was none. */
  ghost predicate EndsAnswered(cfg: Config, t: Turn, phase: Env, save: Env) {
    match t.phase
    case Inference =>
      if Flagged(cfg, t, phase) then !Asks(phase.reply) || (phase.firstAppendErr.Some? && save.firstAppendErr.Some?)
      else !Asks(if phase.reply.Some? then phase.reply else t.response) || save.firstAppendErr.Some?
    case Executing => save.firstAppendErr.Some? || (t.index < cfg.maxToolTurns && save.secondAppendErr.None?)
    case Persisting =>
      || save.secondAppendErr.None?
      || (phase.firstAppendErr.Some? && (!Asks(t.response) || save.firstAppendErr.Some?))
    case _ => !Asks(t.response) || save.firstAppendErr.Some?
  }

  lemma InferenceEnds(cfg: Config, h: seq<Content>, t: Turn, phase: Env, save: Env)
    requires t.phase == Inference && Clean(h, t) && InferStep(cfg, t, phase).err.Some?
    ensures SavedAnswered(h, InferStep(cfg, t, phase).turn, save) <==> EndsAnswered(cfg, t, phase, save)
  {
    hide LoopBreak, Detect, PhaseError, Calls;
    if InferenceError(phase).None? {
      assert Flagged(cfg, t, phase);
      FlaggedBreaks(cfg, t, phase);
      LoopBreakEnds(h, AtLoopBreak(t, phase), phase, save);
    }
  }

  lemma LoopBreakEnds(h: seq<Content>, t: Turn, phase: Env, save: Env)
    requires Clean(h, t) && t.response.Some? && LoopBreak(t, phase).err.Some?
    ensures SavedAnswered(h, LoopBreak(t, phase).turn, save) <==>
      !Asks(t.response) || (phase.firstAppendErr.Some? && save.firstAppendErr.Some?)
  {
    hide Feedback, Calls;
    assert |h + [t.response.value]| != |h|;
  }

  lemma ExecutionEnds(cfg: Config, h: seq<Content>, t: Turn, phase: Env, save: Env)
    requires t.phase == Executing && PairInv(h, t) && DispatcherEnv(phase) && ExecuteStep(cfg, t, phase).err.Some?
    ensures SavedAnswered(h, ExecuteStep(cfg, t, phase).turn, save) <==> EndsAnswered(cfg, t, phase, save)
  {
    hide Calls, PhaseError, Truncate;
    var r := t.response.value;
    DispatcherAnswers(cfg, t, phase);
    var (reply, err) := phase.exec(r, t.index, cfg.maxToolTurns);
    assert DispatcherReply(r, t.index, cfg.maxToolTurns, reply, err);
  }

  lemma PersistenceEnds(cfg: Config, h: seq<Content>, t: Turn, phase: Env, save: Env)
    requires t.phase == Persisting && PairInv(h, t) && PersistStep(t, phase).err.Some?
    ensures SavedAnswered(h, PersistStep(t, phase).turn, save) <==> EndsAnswered(cfg, t, phase, save)
  {
    hide Calls, PhaseError, Answers;
  }

  lemma FailureEnds(cfg: Config, h: seq<Content>, oracle: nat -> Env, f: Failure, t: Turn, save: Env)
    requires LeftBy(cfg, h, oracle, f, t) && DispatcherEnv(oracle(f.at))
    ensures SavedAnswered(h, t, save) <==> EndsAnswered(cfg, f.turn, oracle(f.at), save)
  {
    hide InferStep, ExecuteStep, PersistStep, DispatcherEnv, Calls;
    match f.turn.phase
    case Inference => InferenceEnds(cfg, h, f.turn, oracle(f.at), save);
    case Executing => ExecutionEnds(cfg, h, f.turn, oracle(f.at), save);
    case Persisting => PersistenceEnds(cfg, h, f.turn, oracle(f.at), save);
    case _ =>
  }

  // ---------------------------------------------------------------- a run that fails

  /** The last turn of a failing run: the history with which it began, the turn handed to the
      emergency save, the environment of the save, and the phase that failed. */
  datatype Last = Last(history: seq<Content>, turn: Turn, save: nat, failure: Failure)

  ghost function LastOf(cfg: Config, index: int, world: World, oracle: nat -> Env, k: nat): Last
    requires Sane(oracle) && index <= Over(cfg) && RunLoop(cfg, index, world, oracle, k).err.Some?
    decreases Over(cfg) - index
  {
    var t := FreshTurn(index, world);
    var end := PhaseLoop(cfg, t, oracle, k);
    if end.err.Some? then
      var (f, s) := Handed(cfg, t, oracle, k);
      Last(world.history, f, s, LastFailure(cfg, t, oracle, k, Failure(t, k)))
    else
      assert index <= cfg.maxToolTurns by {
        if index > cfg.maxToolTurns { GuardStops(cfg, t, oracle, k); }
      }
      LastOf(cfg, index + 1, end.turn.world, oracle, end.next)
  }

  lemma {:induction false} LastIsLast(cfg: Config, index: int, world: World, oracle: nat -> Env, k: nat)
    requires Dispatched(oracle) && index <= Over(cfg) && AllAnswered(world.history)
    requires RunLoop(cfg, index, world, oracle, k).err.Some?
    ensures var last := LastOf(cfg, index, world, oracle, k);
      && AllAnswered(last.history) && Shape(last.history, last.turn)
      && LeftBy(cfg, last.history, oracle, last.failure, last.turn)
      && RunLoop(cfg, index, world, oracle, k).world == EmergencySave(last.turn, oracle(last.save)).world
    decreases Over(cfg) - index
  {
    hide AllAnswered, Shape, EmergencySave, LeftBy;
    var end := PhaseLoop(cfg, FreshTurn(index, world), oracle, k);
    if end.err.Some? {
      HandedShape(cfg, world.history, FreshTurn(index, world), oracle, k);
      HandedByFailure(cfg, world.history, FreshTurn(index, world), oracle, k, Failure(FreshTurn(index, world), k));
    } else {
      if index > cfg.maxToolTurns { GuardStops(cfg, FreshTurn(index, world), oracle, k); }
      var chunk := TurnIsPaired(cfg, index, world, oracle, k);
      ChunkKeepsAnswered(world.history, chunk);
      LastIsLast(cfg, index + 1, end.turn.world, oracle, end.next);
    }
  }

  /** A failed run leaves every tool call answered exactly under this condition on the phase
      that failed last and on the appends of that phase and of the emergency save. */
  lemma {:induction false} FailedRunAnsweredExactly(cfg: Config, world: World, oracle: nat -> Env)
    requires Dispatched(oracle) && AllAnswered(world.history) && RunLoop(cfg, 0, world, oracle, 0).err.Some?
    ensures var last := LastOf(cfg, 0, world, oracle, 0);
      AllAnswered(RunLoop(cfg, 0, world, oracle, 0).world.history) <==>
        EndsAnswered(cfg, last.failure.turn, oracle(last.failure.at), oracle(last.save))
  {
    hide AllAnswered, Shape, EmergencySave, SavedAnswered, LeftBy, EndsAnswered, DispatcherEnv;
    LastIsLast(cfg, 0, world, oracle, 0);
    var last := LastOf(cfg, 0, world, oracle, 0);
    SaveExactly(last.history, last.turn, oracle(last.save));
    FailureEnds(cfg, last.history, oracle, last.failure, last.turn, oracle(last.save));
  }

  /** At the turn limit the executor refuses, and the save appends a response whose calls
      nothing answers. */
  lemma {:induction false} LimitLeavesUnanswered(cfg: Config, t: Turn, oracle: nat -> Env, k: nat)
    requires ReadyTurn(cfg, t) && Dispatched(oracle) && t.phase == Executing && t.hasToolCalls
    requires t.toolResponse.None? && Calls(t.response.value) != [] && t.index >= cfg.maxToolTurns
    requires oracle(k + 2).firstAppendErr.None?
    ensures var end := PhaseLoop(cfg, t, oracle, k);
      && end.err.Some?
      && end.turn.world.history == t.world.history + [t.response.value]
      && !AllAnswered(end.turn.world.history)
  {
    var (r, env) := (t.response.value, oracle(k));
    assert DispatcherEnv(env) && SaneEnv(env);
    var (reply, err) := env.exec(r, t.index, cfg.maxToolTurns);
    assert DispatcherReply(r, t.index, cfg.maxToolTurns, reply, err);
    DispatcherAnswers(cfg, t, env);
    FailsToSave(cfg, t, oracle, k);
    CallsHaveParts(r);
    var all := t.world.history + [r];
    assert all[|t.world.history|] == r;
  }
}
