/** Which responses a run can meet: any sequence of responses with calls, in any order, is what
    the gateway may answer in a run whose phases all succeed. It executes exactly the
    unflagged ones. */
module RunScripts {
  import opened Llm
  import opened LoopDetection
  import opened TurnSpec
  import opened PlanTheorems
  import opened TurnProofs
  import TurnFailures

  /** A phase's environment in which nothing fails and the gateway answers r. */
  predicate Smooth(env: Env, r: Content) {
    && env.ctxErr.None? && env.publishErr.None? && env.prepareErr.None?
    && env.reply == Some(r) && env.replyErr.None?
    && env.firstAppendErr.None? && env.secondAppendErr.None?
  }

  /** Guard, Refining and Inference; then Executing and Persisting, unless the detector breaks
      the turn off. */
  function Phases(flagged: bool): nat { if flagged then 3 else 5 }

  /** The phases that the first i responses of a script take. */
  function StartOf(rs: seq<Content>, i: nat): nat
    requires i <= |rs|
  {
    if i == 0 then 0 else StartOf(rs, i - 1) + Phases(Flagged(rs, i - 1))
  }

  /** The oracle answers the script, one response a turn. */
  predicate AnswersTurn(oracle: nat -> Env, rs: seq<Content>, i: nat)
    requires i < |rs|
  {
    forall k | StartOf(rs, i) <= k < StartOf(rs, i + 1) :: Smooth(oracle(k), rs[i])
  }

  function Unflagged(rs: seq<Content>): seq<Content> {
    if rs == [] then []
    else
      var k := |rs| - 1;
      Unflagged(rs[..k]) + (if Flagged(rs, k) then [] else [rs[k]])
  }

  // ---------------------------------------------------------------- one turn

  lemma {:induction false} Advance(cfg: Config, t: Turn, oracle: nat -> Env, k: nat, u: Turn)
    requires ReadyTurn(cfg, t) && t.phase != Complete && Sane(oracle)
    requires ExecutePhase(cfg, t, oracle(k)) == (u, None)
    ensures ReadyTurn(cfg, u)
    ensures var (end, rest) := (PhaseLoop(cfg, t, oracle, k), PhaseLoop(cfg, u, oracle, k + 1));
      end.turn == rest.turn && end.err == rest.err && end.next == rest.next
  {
    PhaseDecreases(cfg, t, oracle(k));
  }

  /** The turn at Inference. */
  function Inferring(index: int, world: World): Turn { FreshTurn(index, world).(phase := Inference) }

  lemma {:induction false} UpToInference(cfg: Config, index: int, world: World, oracle: nat -> Env, k: nat, r: Content)
    requires Sane(oracle) && index <= cfg.maxToolTurns && Smooth(oracle(k), r) && Smooth(oracle(k + 1), r)
    ensures var (end, rest) :=
      (PhaseLoop(cfg, FreshTurn(index, world), oracle, k), PhaseLoop(cfg, Inferring(index, world), oracle, k + 2));
      end.turn == rest.turn && end.err == rest.err && end.next == rest.next
  {
    var t := FreshTurn(index, world);
    Advance(cfg, t, oracle, k, t.(phase := Refining));
    Advance(cfg, t.(phase := Refining), oracle, k + 1, Inferring(index, world));
  }

  /** The turn after an inference that answers r. */
  function Answered(t: Turn, r: Content): Turn {
    t.(response := Some(r), hasToolCalls := true,
       world := t.world.(gatewayCalls := t.world.gatewayCalls + 1, detector := Detect(t.world.detector, r).0))
  }

  lemma {:induction false} SmoothInference(cfg: Config, t: Turn, env: Env, r: Content)
    requires cfg.hasBus && Smooth(env, r) && Calls(r) != []
    ensures var u := Answered(t, r);
      InferStep(cfg, t, env) == if Detect(t.world.detector, r).1 then LoopBreak(u, env) else Go(u, Executing)
  {
    hide Detect, LoopBreak;
    HasToolCallsIff(r);
    NotEmpty(r);
  }

  lemma {:induction false} NotEmpty(r: Content)
    requires Calls(r) != []
    ensures !IsResponseEmpty(r)
  {
    if IsResponseEmpty(r) { EmptyNoCalls(r); }
  }

  /** What a turn leaves for the next one. */
  predicate Passed(world: World, end: LoopEnd, k: nat, r: Content) {
    var (detector, flagged) := Detect(world.detector, r);
    && end.err.None? && end.turn.hasToolCalls && end.next == k + Phases(flagged)
    && end.turn.world.detector == detector
    && end.turn.world.gatewayCalls == world.gatewayCalls + 1
    && end.turn.world.executed == world.executed + if flagged then [] else [r]
  }

  lemma {:induction false} BrokenOff(t: Turn, env: Env, r: Content)
    requires Smooth(env, r) && t.response == Some(r)
    ensures var o := LoopBreak(t, env);
      && o.err.None? && o.next == Some(Complete) && o.turn.hasToolCalls
      && o.turn.world.gatewayCalls == t.world.gatewayCalls
      && o.turn.world.detector == t.world.detector && o.turn.world.executed == t.world.executed
  {
  }

  lemma {:induction false} FlaggedTurn(cfg: Config, t: Turn, oracle: nat -> Env, k: nat, r: Content)
    requires Sane(oracle) && ReadyTurn(cfg, t) && cfg.hasBus && t.phase == Inference && Calls(r) != []
    requires Smooth(oracle(k), r) && Detect(t.world.detector, r).1
    ensures var end := PhaseLoop(cfg, t, oracle, k);
      && end.err.None? && end.turn.hasToolCalls && end.next == k + 1
      && end.turn.world.gatewayCalls == t.world.gatewayCalls + 1
      && end.turn.world.detector == Detect(t.world.detector, r).0 && end.turn.world.executed == t.world.executed
  {
    hide Detect, LoopBreak, InferStep;
    SmoothInference(cfg, t, oracle(k), r);
    BrokenOff(Answered(t, r), oracle(k), r);
    var u := ExecutePhase(cfg, t, oracle(k)).0;
    Advance(cfg, t, oracle, k, u);
  }

  lemma {:induction false} SmoothExecution(cfg: Config, t: Turn, env: Env, r: Content)
    requires DispatcherEnv(env) && Smooth(env, r) && t.response == Some(r) && t.hasToolCalls && t.toolResponse.None?
    requires Calls(r) != [] && env.exec(r, t.index, cfg.maxToolTurns).1.None?
    ensures var o := ExecuteStep(cfg, t, env);
      && o.err.None? && o.next == Some(Persisting) && o.turn.hasToolCalls && o.turn.retryCount == t.retryCount
      && o.turn.world.gatewayCalls == t.world.gatewayCalls
      && o.turn.world.detector == t.world.detector && o.turn.world.executed == t.world.executed + [r]
  {
    DispatcherAnswers(cfg, t, env);
  }

  lemma {:induction false} SmoothPersistence(t: Turn, env: Env, r: Content)
    requires Smooth(env, r)
    ensures var o := PersistStep(t, env);
      && o.err.None? && o.next == Some(Complete) && o.turn.hasToolCalls == t.hasToolCalls
      && o.turn.world.gatewayCalls == t.world.gatewayCalls
      && o.turn.world.detector == t.world.detector && o.turn.world.executed == t.world.executed
  {
  }

  lemma {:induction false} UnflaggedTurn(cfg: Config, t: Turn, oracle: nat -> Env, k: nat, r: Content)
    requires Dispatched(oracle) && ReadyTurn(cfg, t) && cfg.hasBus && t.phase == Inference && t.toolResponse.None?
    requires Calls(r) != [] && !Detect(t.world.detector, r).1
    requires forall j | k <= j < k + 3 :: Smooth(oracle(j), r)
    requires oracle(k + 1).exec(r, t.index, cfg.maxToolTurns).1.None?
    ensures var end := PhaseLoop(cfg, t, oracle, k);
      && end.err.None? && end.turn.hasToolCalls && end.next == k + 3
      && end.turn.world.gatewayCalls == t.world.gatewayCalls + 1
      && end.turn.world.detector == Detect(t.world.detector, r).0
      && end.turn.world.executed == t.world.executed + [r]
  {
    hide Detect, InferStep, ExecuteStep, PersistStep, DispatcherEnv;
    SmoothInference(cfg, t, oracle(k), r);
    var u := ExecutePhase(cfg, t, oracle(k)).0;
    Advance(cfg, t, oracle, k, u);
    assert DispatcherEnv(oracle(k + 1));
    SmoothExecution(cfg, u, oracle(k + 1), r);
    var v := ExecutePhase(cfg, u, oracle(k + 1)).0;
    Advance(cfg, u, oracle, k + 1, v);
    SmoothPersistence(v, oracle(k + 2), r);
    Advance(cfg, v, oracle, k + 2, ExecutePhase(cfg, v, oracle(k + 2)).0);
  }

  lemma {:induction false} SmoothTurn(cfg: Config, index: int, world: World, oracle: nat -> Env, k: nat, r: Content)
    requires Dispatched(oracle) && cfg.hasBus && index < cfg.maxToolTurns && Calls(r) != []
    requires forall j | k <= j < k + Phases(Detect(world.detector, r).1) :: Smooth(oracle(j), r)
    requires forall j :: oracle(j).exec(r, index, cfg.maxToolTurns).1.None?
    ensures Passed(world, PhaseLoop(cfg, FreshTurn(index, world), oracle, k), k, r)
  {
    hide Detect, PhaseLoop, Smooth, Calls, DispatcherEnv;
    UpToInference(cfg, index, world, oracle, k, r);
    if Detect(world.detector, r).1 {
      FlaggedTurn(cfg, Inferring(index, world), oracle, k + 2, r);
    } else {
      UnflaggedTurn(cfg, Inferring(index, world), oracle, k + 2, r);
    }
  }

  // ---------------------------------------------------------------- a whole script

  /** The executor serves every call of the run. */
  ghost predicate Serves(cfg: Config, oracle: nat -> Env, index: int, r: Content) {
    forall j :: oracle(j).exec(r, index, cfg.maxToolTurns).1.None?
  }

  lemma {:induction false} RunGoesOn(cfg: Config, index: int, world: World, oracle: nat -> Env, k: nat)
    requires Sane(oracle) && index <= cfg.maxToolTurns && index <= Over(cfg)
    requires var end := PhaseLoop(cfg, FreshTurn(index, world), oracle, k); end.err.None? && end.turn.hasToolCalls
    ensures index + 1 <= Over(cfg)
    ensures var end := PhaseLoop(cfg, FreshTurn(index, world), oracle, k);
      var (whole, rest) := (RunLoop(cfg, index, world, oracle, k),
        RunLoop(cfg, index + 1, end.turn.world, oracle, end.next));
      whole.world == rest.world && whole.err == rest.err
  {
    hide PhaseLoop;
  }

  /** The first n responses of a script, from a fresh run: what the detector knows and the
      executor was handed, and the place where the run goes on. */
  lemma {:induction false} ScriptedRun(cfg: Config, rs: seq<Content>, h: seq<Content>, oracle: nat -> Env, n: nat)
      returns (world: World)
    requires Dispatched(oracle) && cfg.hasBus && n <= |rs| <= cfg.maxToolTurns
    requires forall i | 0 <= i < |rs| ::
        Calls(rs[i]) != [] && AnswersTurn(oracle, rs, i) && Serves(cfg, oracle, i, rs[i])
    ensures world.detector == After(rs[..n]) && world.executed == Unflagged(rs[..n]) && world.gatewayCalls == n
    ensures var (whole, rest) := (RunLoop(cfg, 0, World(h, FRESH, false, 0, []), oracle, 0),
        RunLoop(cfg, n, world, oracle, StartOf(rs, n)));
      whole.world == rest.world && whole.err == rest.err
  {
    hide PhaseLoop, RunLoop, Detect, DispatcherEnv, Calls;
    if n == 0 {
      world := World(h, FRESH, false, 0, []);
      assert rs[..0] == [];
    } else {
      var i := n - 1;
      var before := ScriptedRun(cfg, rs, h, oracle, i);
      assert AnswersTurn(oracle, rs, i) && Serves(cfg, oracle, i, rs[i]) && Calls(rs[i]) != [];
      assert Flagged(rs, i) == Detect(before.detector, rs[i]).1;
      SmoothTurn(cfg, i, before, oracle, StartOf(rs, i), rs[i]);
      RunGoesOn(cfg, i, before, oracle, StartOf(rs, i));
      world := PhaseLoop(cfg, FreshTurn(i, before), oracle, StartOf(rs, i)).turn.world;
      assert rs[..n][..i] == rs[..i] && rs[..n][i] == rs[i];
    }
  }

  // ---------------------------------------------------------------- the oracle of a script

  /** A dispatcher that nothing cancels. */
  function Serve(c: Content, index: int, maxToolTurns: int): (Option<Content>, Option<Error>) {
    if Calls(c) == [] then (None, None)
    else if index >= maxToolTurns then (None, Some(Base(MaxTurnsReached)))
    else (Some(Content("", Tool, SyntheticParts(Calls(c)))), None)
  }

  lemma {:induction false} ServeConforms(c: Content, index: int, maxToolTurns: int)
    ensures var (reply, err) := Serve(c, index, maxToolTurns);
      DispatcherReply(c, index, maxToolTurns, reply, err) && NotEmptyMarked(err)
  {
    SyntheticAnswers(Calls(c));
  }

  /** The gateway answers r; at the end of the script the context is cancelled. */
  function ScriptEnv(r: Option<Content>): Env {
    if r.Some? then Env(None, None, None, r, None, Serve, None, None, None)
    else Env(Some(Base(Canceled)), None, None, None, None, Serve, None, None, None)
  }

  /** The response whose turn runs phase k, searched from turn i on. */
  function ScriptAt(rs: seq<Content>, k: nat, i: nat): Option<Content>
    requires i <= |rs|
    decreases |rs| - i
  {
    if i == |rs| then None else if k < StartOf(rs, i + 1) then Some(rs[i]) else ScriptAt(rs, k, i + 1)
  }

  lemma {:induction false} StartsGrow(rs: seq<Content>, i: nat, j: nat)
    requires i <= j <= |rs|
    ensures StartOf(rs, i) <= StartOf(rs, j)
    decreases j
  {
    hide Flagged;
    if i < j { StartsGrow(rs, i, j - 1); }
  }

  lemma {:induction false} ScriptAtIs(rs: seq<Content>, k: nat, i: nat, j: nat)
    requires j <= i <= |rs| && StartOf(rs, i) <= k && (i < |rs| ==> k < StartOf(rs, i + 1))
    ensures ScriptAt(rs, k, j) == if i < |rs| then Some(rs[i]) else None
    decreases i - j
  {
    if j < i {
      StartsGrow(rs, j + 1, i);
      ScriptAtIs(rs, k, i, j + 1);
    }
  }

  lemma {:induction false} ScriptDispatches(rs: seq<Content>, oracle: nat -> Env)
    requires forall k: nat :: oracle(k) == ScriptEnv(ScriptAt(rs, k, 0))
    ensures Dispatched(oracle)
  {
    forall k: nat ensures SaneEnv(oracle(k)) && DispatcherEnv(oracle(k)) {
      var env := oracle(k);
      assert env == ScriptEnv(ScriptAt(rs, k, 0));
      forall c, i, m
        ensures NotEmptyMarked(env.exec(c, i, m).1)
        ensures DispatcherReply(c, i, m, env.exec(c, i, m).0, env.exec(c, i, m).1)
      {
        ServeConforms(c, i, m);
      }
    }
  }

  /** A turn whose context is cancelled at once ends the run and leaves all as it is. */
  lemma {:induction false} CancelledTurn(cfg: Config, index: int, world: World, oracle: nat -> Env, k: nat)
    requires Sane(oracle) && index <= Over(cfg) && oracle(k).ctxErr.Some?
    ensures RunLoop(cfg, index, world, oracle, k).world == world
  {
    hide EmergencySave;
    var t := FreshTurn(index, world);
    var e := oracle(k).ctxErr.value;
    assert SaneEnv(oracle(k));
    assert forall s: Sentinel :: e.Is(s) == (s == e.sentinel);
    TurnFailures.FailsToSave(cfg, t, oracle, k);
    NothingPending(Land(t, StepOutcome(cfg, t, oracle(k))).(phase := Complete), oracle(k + 2));
  }

  lemma {:induction false} NothingPending(t: Turn, env: Env)
    requires t.response.None? && t.toolResponse.None?
    ensures EmergencySave(t, env) == t
  {
  }

  /** Any sequence of responses with calls, up to the turn limit, is what the gateway answers
      in some run, which executes exactly those that the detector does not flag. */
  lemma {:induction false} EveryScriptIsARun(cfg: Config, rs: seq<Content>, h: seq<Content>)
      returns (oracle: nat -> Env)
    requires cfg.hasBus && |rs| <= cfg.maxToolTurns && forall i | 0 <= i < |rs| :: Calls(rs[i]) != []
    ensures Dispatched(oracle)
    ensures forall i | 0 <= i < |rs| :: AnswersTurn(oracle, rs, i)
    ensures var world := RunLoop(cfg, 0, World(h, FRESH, false, 0, []), oracle, 0).world;
      world.executed == Unflagged(rs) && world.detector == After(rs) && world.gatewayCalls == |rs|
  {
    hide RunLoop, Detect, DispatcherEnv, Unflagged, Calls;
    oracle := (k: nat) => ScriptEnv(ScriptAt(rs, k, 0));
    ScriptDispatches(rs, oracle);
    forall i | 0 <= i < |rs| ensures AnswersTurn(oracle, rs, i) && Serves(cfg, oracle, i, rs[i]) {
      forall k | StartOf(rs, i) <= k < StartOf(rs, i + 1) ensures Smooth(oracle(k), rs[i]) {
        ScriptAtIs(rs, k, i, 0);
      }
    }
    var world := ScriptedRun(cfg, rs, h, oracle, |rs|);
    ScriptAtIs(rs, StartOf(rs, |rs|), |rs|, 0);
    CancelledTurn(cfg, |rs|, world, oracle, StartOf(rs, |rs|));
    assert rs[..|rs|] == rs;
  }

  /** A run in which the executor gets a response again although the detector had flagged
      its repeat before. */
  lemma RepeatIsExecuted(cfg: Config, x: seq<Content>, h: seq<Content>) returns (oracle: nat -> Env, rs: seq<Content>)
    requires cfg.hasBus && cfg.maxToolTurns >= 8 && |x| == 6 && OneCallEach(x) && Distinct(Keys(x))
    ensures Dispatched(oracle)
    ensures rs == x[..5] + [x[0], x[5], x[0]] && forall i | 0 <= i < 8 :: AnswersTurn(oracle, rs, i)
    ensures RunLoop(cfg, 0, World(h, FRESH, false, 0, []), oracle, 0).world.executed == x + [x[0]]
  {
    hide RunLoop, Detect, Flagged, Keys, Distinct, Calls, AnswersTurn;
    rs := RepeatCanBeMissed(x);
    oracle := EveryScriptIsARun(cfg, rs, h);
    UnflaggedSkips(rs, 5);
    UnflaggedAll(rs, 5);
    assert rs[..5] == x[..5] && rs[..8] == rs && x[..5] + [] + [x[5]] + [x[0]] == x + [x[0]];
  }

  lemma {:induction false} UnflaggedAll(rs: seq<Content>, n: nat)
    requires n <= |rs| && forall i | 0 <= i < n :: !Flagged(rs, i)
    ensures Unflagged(rs[..n]) == rs[..n]
  {
    hide Flagged;
    if n == 0 {
      assert rs[..0] == [];
    } else {
      UnflaggedAll(rs, n - 1);
      UnflaggedSnoc(rs, n - 1);
      assert rs[..n] == rs[..n - 1] + [rs[n - 1]];
    }
  }

  lemma {:induction false} UnflaggedSnoc(rs: seq<Content>, k: nat)
    requires k < |rs|
    ensures Unflagged(rs[..k + 1]) == Unflagged(rs[..k]) + if Flagged(rs, k) then [] else [rs[k]]
  {
    assert rs[..k + 1][..k] == rs[..k] && rs[..k + 1][k] == rs[k];
  }

  lemma {:induction false} UnflaggedSkips(rs: seq<Content>, k: nat)
    requires |rs| == k + 3 && Flagged(rs, k) && !Flagged(rs, k + 1) && !Flagged(rs, k + 2)
    ensures Unflagged(rs) == Unflagged(rs[..k]) + [] + [rs[k + 1]] + [rs[k + 2]]
  {
    hide Flagged, Unflagged;
    UnflaggedSnoc(rs, k);
    UnflaggedSnoc(rs, k + 1);
    UnflaggedSnoc(rs, k + 2);
    assert rs[..k + 3] == rs;
  }
}
