/** The loop detector and the engine together: over a whole run no tool call, by name and
    arguments, reaches the executor more than five times. */
module RunSafety {
  import opened Llm
  import opened LoopDetection
  import opened TurnSpec

  function ExecutedTimes(rs: seq<Content>, key: string): nat {
    if rs == [] then 0 else ExecutedTimes(rs[..|rs| - 1], key) + Occurrences(Calls(rs[|rs| - 1]), key)
  }

  /** Every execution was counted by the detector, and stayed within its limit. */
  ghost predicate WorldInv(w: World, key: string) {
    ExecutedTimes(w.executed, key) <= MAX_REPETITIONS && ExecutedTimes(w.executed, key) <= Times(w.detector.counts, key)
  }

  ghost predicate KeyInv(t: Turn, key: string) {
    if t.phase == Executing && t.hasToolCalls && t.response.Some? then
      var n := ExecutedTimes(t.world.executed, key) + Occurrences(Calls(t.response.value), key);
      n <= MAX_REPETITIONS && n <= Times(t.world.detector.counts, key)
    else WorldInv(t.world, key)
  }

  lemma DetectKeeps(cfg: Config, t: Turn, env: Env, key: string)
    requires cfg.hasBus && t.response.Some? && WorldInv(t.world, key) && t.phase == Inference
    ensures KeyInv(Land(t, DetectStep(cfg, t, env)), key)
  {
    DetectBound(t.world.detector, t.response.value, key, ExecutedTimes(t.world.executed, key));
    var (detector, flagged) := Detect(t.world.detector, t.response.value);
    if flagged { LoopBreakKeeps(t.(world := t.world.(detector := detector)), env); }
  }

  lemma LoopBreakKeeps(t: Turn, env: Env)
    ensures var o := LoopBreak(t, env);
      o.turn.world.executed == t.world.executed && o.turn.world.detector == t.world.detector &&
        o.next in {None, Some(Complete)}
  {
  }

  lemma InferKeeps(cfg: Config, t: Turn, env: Env, key: string)
    requires cfg.hasBus && KeyInv(t, key) && t.phase == Inference
    ensures KeyInv(Land(t, InferStep(cfg, t, env)), key)
  {
    if InferenceError(env).None? {
      var called := t.(world := t.world.(gatewayCalls := t.world.gatewayCalls + 1));
      DetectKeeps(cfg, called.(response := env.reply, hasToolCalls := HasToolCalls(env.reply.value)), env, key);
    }
  }

  lemma ExecuteKeeps(cfg: Config, t: Turn, env: Env, key: string)
    requires KeyInv(t, key) && t.phase == Executing && t.response.Some?
    ensures KeyInv(Land(t, ExecuteStep(cfg, t, env)), key)
  {
    var executed := t.world.executed + [t.response.value];
    assert executed[..|executed| - 1] == t.world.executed;
  }

  /** The phases that neither infer nor execute touch neither the log nor the detector. */
  ghost predicate LeavesAlone(t: Turn, o: Outcome) {
    && o.turn.world.executed == t.world.executed
    && o.turn.world.detector == t.world.detector
    && o.next != Some(Executing)
  }

  lemma PersistLeavesAlone(t: Turn, env: Env)
    ensures LeavesAlone(t, PersistStep(t, env))
  {
  }

  lemma RecoverLeavesAlone(cfg: Config, t: Turn, env: Env)
    ensures LeavesAlone(t, RecoverStep(cfg, t, env))
  {
    hide Classify, ShouldRetry, Error.Is, Error.IsTransient;
  }

  lemma EarlyLeavesAlone(cfg: Config, t: Turn, env: Env)
    ensures LeavesAlone(t, GuardStep(cfg, t, env)) && LeavesAlone(t, RefineStep(t, env))
  {
  }

  lemma AloneKeeps(t: Turn, o: Outcome, key: string)
    requires LeavesAlone(t, o) && KeyInv(t, key) && t.phase in {Guard, Refining, Persisting, Recovering}
    ensures KeyInv(Land(t, o), key)
  {
  }

  lemma OtherKeeps(cfg: Config, t: Turn, env: Env, key: string)
    requires KeyInv(t, key) && ReadyTurn(cfg, t) && t.phase in {Guard, Refining, Persisting, Recovering}
    ensures KeyInv(Land(t, StepOutcome(cfg, t, env)), key)
  {
    PersistLeavesAlone(t, env);
    RecoverLeavesAlone(cfg, t, env);
    EarlyLeavesAlone(cfg, t, env);
    AloneKeeps(t, StepOutcome(cfg, t, env), key);
  }

  lemma {:induction false} LoopKeeps(cfg: Config, t: Turn, oracle: nat -> Env, k: nat, key: string)
    requires ReadyTurn(cfg, t) && Sane(oracle) && cfg.hasBus && KeyInv(t, key)
    ensures WorldInv(PhaseLoop(cfg, t, oracle, k).turn.world, key)
    decreases Energy(cfg, t)
  {
    if t.phase != Complete {
      PhaseDecreases(cfg, t, oracle(k));
      match t.phase {
        case Inference => InferKeeps(cfg, t, oracle(k), key);
        case Executing => ExecuteKeeps(cfg, t, oracle(k), key);
        case _ => OtherKeeps(cfg, t, oracle(k), key);
      }
      var (t', err) := ExecutePhase(cfg, t, oracle(k));
      if err.Some? && t'.phase == Complete {
        SaveKeeps(t', oracle(k + 1));
      } else {
        LoopKeeps(cfg, t', oracle, k + 1, key);
      }
    }
  }

  lemma SaveKeeps(t: Turn, env: Env)
    ensures EmergencySave(t, env).world.executed == t.world.executed
    ensures EmergencySave(t, env).world.detector == t.world.detector
  {
  }

  lemma {:induction false} RunKeeps(cfg: Config, index: int, world: World, oracle: nat -> Env, k: nat, key: string)
    requires Sane(oracle) && index <= Over(cfg) && cfg.hasBus && WorldInv(world, key)
    ensures WorldInv(RunLoop(cfg, index, world, oracle, k).world, key)
    decreases Over(cfg) - index
  {
    var end := PhaseLoop(cfg, FreshTurn(index, world), oracle, k);
    LoopKeeps(cfg, FreshTurn(index, world), oracle, k, key);
    if !(end.err.Some? || ShouldStopRunning(end.turn)) {
      if index > cfg.maxToolTurns { GuardStops(cfg, FreshTurn(index, world), oracle, k); }
      RunKeeps(cfg, index + 1, end.turn.world, oracle, end.next, key);
    }
  }

  /** A run starts with a fresh detector; whatever the gateway answers and whatever the
      executor is, no call is executed more than five times. */
  lemma {:induction false} ExecutedAtMostFive(cfg: Config, history: seq<Content>, oracle: nat -> Env, key: string)
    requires Sane(oracle) && cfg.hasBus
    ensures var end := RunLoop(cfg, 0, World(history, FRESH, false, 0, []), oracle, 0);
      ExecutedTimes(end.world.executed, key) <= MAX_REPETITIONS
  {
    RunKeeps(cfg, 0, World(history, FRESH, false, 0, []), oracle, 0, key);
  }
}
