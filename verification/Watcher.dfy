/** The configuration watcher: refreshes that read files without the lock and then apply what
    they read, guarded by modification times, while others do the same. */
module Watcher {
  import opened Llm

  type Time = int

  datatype Limits = Limits(tokens: int, toolTurns: int, historyTurns: int)

  /** `memory` stands for the MEMORY section, `windows` for the models' context windows. */
  datatype MainConfig = MainConfig(limits: Limits, windows: map<string, int>, memory: nat)
  datatype SessionConfig = SessionConfig(tokens: Option<int>, toolTurns: Option<int>, historyTurns: Option<int>)

  datatype MainLoad = MainLoad(mod: Time, cfg: MainConfig, model: string)
  datatype SessionLoad = SessionLoad(mod: Time, cfg: SessionConfig)

  /** What reading a file gives: its modification time, None when the file cannot be stat'd;
      and its content, None when it cannot be loaded. */
  datatype FileRead<T> = FileRead(mod: Option<Time>, content: Option<T>)

  datatype Cache = Cache(
    mainPath: string,
    sessionPath: string,
    lastMainMod: Time,
    lastSessionMod: Time,
    lastModel: string,
    limits: Limits,
    contextWindow: int,
    memory: nat)

  const ZERO_TIME: Time := 0
  const DEFAULT_WINDOW := 1000000
  const DEFAULT_MEMORY: nat := 0

  function Fresh(limits: Limits): Cache {
    Cache("", "", ZERO_TIME, ZERO_TIME, "", limits, DEFAULT_WINDOW, DEFAULT_MEMORY)
  }

  function ResolveContextWindow(cfg: MainConfig, model: string): int {
    if model in cfg.windows && cfg.windows[model] > 0 then cfg.windows[model] else DEFAULT_WINDOW
  }

  /** What a refresh loads from the main file, if it has to. */
  function LoadMain(snap: Cache, model: string, read: FileRead<MainConfig>): Option<MainLoad> {
    if snap.mainPath == "" || read.mod.None? then None
    else if read.mod.value <= snap.lastMainMod && model == snap.lastModel then None
    else if read.content.None? then None
    else Some(MainLoad(read.mod.value, read.content.value, model))
  }

  function LoadSession(snap: Cache, force: bool, read: FileRead<SessionConfig>): Option<SessionLoad> {
    if snap.sessionPath == "" || read.mod.None? then None
    else if read.mod.value <= snap.lastSessionMod && !force then None
    else if read.content.None? then None
    else Some(SessionLoad(read.mod.value, read.content.value))
  }

  function Or(x: Option<int>, y: int): int { if x.Some? then x.value else y }

  function Overlay(l: Limits, cfg: SessionConfig): Limits {
    Limits(Or(cfg.tokens, l.tokens), Or(cfg.toolTurns, l.toolTurns), Or(cfg.historyTurns, l.historyTurns))
  }

  predicate AcceptsMain(c: Cache, load: Option<MainLoad>) { load.Some? && load.value.mod >= c.lastMainMod }
  predicate AcceptsSession(c: Cache, load: Option<SessionLoad>) { load.Some? && load.value.mod >= c.lastSessionMod }

  function ApplyMain(c: Cache, l: MainLoad): Cache {
    c.(lastMainMod := l.mod, lastModel := l.model, limits := l.cfg.limits,
       contextWindow := ResolveContextWindow(l.cfg, l.model), memory := l.cfg.memory)
  }

  function ApplySession(c: Cache, l: SessionLoad): Cache {
    c.(limits := Overlay(c.limits, l.cfg), lastSessionMod := l.mod)
  }

  /** The last phase of a refresh, under the lock. */
  function ApplyLoads(c: Cache, main: Option<MainLoad>, sess: Option<SessionLoad>): Cache {
    var after := if AcceptsMain(c, main) then ApplyMain(c, main.value) else c;
    if AcceptsSession(c, sess) then ApplySession(after, sess.value) else after
  }

  function SetLimit(value: int, current: int): int { if value >= 0 then value else current }

  function WithLimits(c: Cache, l: Limits): Cache {
    c.(limits := Limits(SetLimit(l.tokens, c.limits.tokens), SetLimit(l.toolTurns, c.limits.toolTurns),
                        SetLimit(l.historyTurns, c.limits.historyTurns)))
  }

  // ---------------------------------------------------------------- the watcher

  class FileConfigWatcher {
    var mainPath: string
    var sessionPath: string
    var lastMainMod: Time
    var lastSessionMod: Time
    var lastModel: string
    var maxHistoryTokens: int
    var maxToolTurns: int
    var maxHistoryTurns: int
    var contextWindow: int
    var memory: nat

    function View(): Cache
      reads this
    {
      Cache(mainPath, sessionPath, lastMainMod, lastSessionMod, lastModel,
            Limits(maxHistoryTokens, maxToolTurns, maxHistoryTurns), contextWindow, memory)
    }

    constructor (tokens: int, toolTurns: int, historyTurns: int)
      ensures View() == Fresh(Limits(tokens, toolTurns, historyTurns))
    {
      mainPath, sessionPath, lastMainMod, lastSessionMod, lastModel := "", "", ZERO_TIME, ZERO_TIME, "";
      maxHistoryTokens, maxToolTurns, maxHistoryTurns := tokens, toolTurns, historyTurns;
      contextWindow, memory := DEFAULT_WINDOW, DEFAULT_MEMORY;
    }

    method ApplyMainConfig(cfg: MainConfig, mod: Time, model: string)
      modifies this
      ensures View() == ApplyMain(old(View()), MainLoad(mod, cfg, model))
    {
      lastMainMod, lastModel := mod, model;
      maxHistoryTokens, maxToolTurns, maxHistoryTurns :=
        cfg.limits.tokens, cfg.limits.toolTurns, cfg.limits.historyTurns;
      contextWindow := ResolveContextWindow(cfg, model);
      memory := cfg.memory;
    }

    method ApplySessionLimits(cfg: SessionConfig)
      modifies this`maxHistoryTokens, this`maxToolTurns, this`maxHistoryTurns
      ensures View() == old(View()).(limits := Overlay(old(View()).limits, cfg))
    {
      if cfg.tokens.Some? { maxHistoryTokens := cfg.tokens.value; }
      if cfg.toolTurns.Some? { maxToolTurns := cfg.toolTurns.value; }
      if cfg.historyTurns.Some? { maxHistoryTurns := cfg.historyTurns.value; }
    }

    method SetLimits(l: Limits)
      modifies this`maxHistoryTokens, this`maxToolTurns, this`maxHistoryTurns
      ensures View() == WithLimits(old(View()), l)
    {
      if l.tokens >= 0 { maxHistoryTokens := l.tokens; }
      if l.toolTurns >= 0 { maxToolTurns := l.toolTurns; }
      if l.historyTurns >= 0 { maxHistoryTurns := l.historyTurns; }
    }

    /** The last phase; the cache may have changed since the loads were decided on. */
    method Apply(main: Option<MainLoad>, sess: Option<SessionLoad>)
      modifies this
      ensures View() == ApplyLoads(old(View()), main, sess)
    {
      if main.Some? && !(main.value.mod < lastMainMod) {
        ApplyMainConfig(main.value.cfg, main.value.mod, main.value.model);
      }
      if sess.Some? && !(sess.value.mod < lastSessionMod) {
        ApplySessionLimits(sess.value.cfg);
        lastSessionMod := sess.value.mod;
      }
    }

    /** A refresh that nothing interrupts. */
    method Refresh(model: string, mainFile: FileRead<MainConfig>, sessionFile: FileRead<SessionConfig>)
      modifies this
      ensures var main := LoadMain(old(View()), model, mainFile);
        View() == ApplyLoads(old(View()), main, LoadSession(old(View()), main.Some?, sessionFile))
    {
      var snap := View();
      var main := LoadMain(snap, model, mainFile);
      var sess := LoadSession(snap, main.Some?, sessionFile);
      Apply(main, sess);
    }
  }

  /** The main file has to be loaded and can be: it is configured and readable, and it is newer
      than the cache or another model is asked for. */
  predicate MainDue(c: Cache, model: string, file: FileRead<MainConfig>) {
    && c.mainPath != "" && file.mod.Some? && file.content.Some?
    && (file.mod.value > c.lastMainMod || model != c.lastModel)
  }

  /** The session file is read when it is newer, and whenever the main file was. */
  predicate SessionDue(c: Cache, mainLoaded: bool, file: FileRead<SessionConfig>) {
    && c.sessionPath != "" && file.mod.Some? && file.content.Some?
    && (file.mod.value > c.lastSessionMod || mainLoaded)
  }

  /** One limit: the session's, if it is applied and sets it; otherwise the main file's, if that
      is applied; otherwise the old one. */
  function LimitAfter(old_: int, main: Option<int>, session: Option<int>): int {
    if session.Some? then session.value else if main.Some? then main.value else old_
  }

  /** What an uninterrupted refresh leaves, told by the files and the cache before it. */
  lemma {:induction false} RefreshExactly(c: Cache, model: string, mainFile: FileRead<MainConfig>,
          sessionFile: FileRead<SessionConfig>)
    ensures var main := LoadMain(c, model, mainFile);
      var now := ApplyLoads(c, main, LoadSession(c, main.Some?, sessionFile));
      var loads := MainDue(c, model, mainFile);
      var m := loads && mainFile.mod.value >= c.lastMainMod;
      var s := SessionDue(c, loads, sessionFile) && sessionFile.mod.value >= c.lastSessionMod;
      && now.mainPath == c.mainPath && now.sessionPath == c.sessionPath
      && now.lastMainMod == (if m then mainFile.mod.value else c.lastMainMod)
      && now.lastSessionMod == (if s then sessionFile.mod.value else c.lastSessionMod)
      && now.lastModel == (if m then model else c.lastModel)
      && now.memory == (if m then mainFile.content.value.memory else c.memory)
      && (!m ==> now.contextWindow == c.contextWindow)
      && (m ==>
            var windows := mainFile.content.value.windows;
            && (model in windows && windows[model] > 0 ==> now.contextWindow == windows[model])
            && (model !in windows || windows[model] <= 0 ==> now.contextWindow == 1000000))
      && var l := if m then Some(mainFile.content.value.limits) else None;
         var o := if s then sessionFile.content.value else SessionConfig(None, None, None);
         && now.limits.tokens == LimitAfter(c.limits.tokens, if l.Some? then Some(l.value.tokens) else None, o.tokens)
         && now.limits.toolTurns ==
              LimitAfter(c.limits.toolTurns, if l.Some? then Some(l.value.toolTurns) else None, o.toolTurns)
         && now.limits.historyTurns ==
              LimitAfter(c.limits.historyTurns, if l.Some? then Some(l.value.historyTurns) else None, o.historyTurns)
  {
  }

  /** A refresh after the files changed is up to date with both of them. */
  lemma {:induction false} RefreshIsCurrent(c: Cache, model: string, mainFile: FileRead<MainConfig>,
          sessionFile: FileRead<SessionConfig>)
    requires c.mainPath != "" && mainFile.mod.Some? && mainFile.content.Some? && mainFile.mod.value > c.lastMainMod
    requires c.sessionPath != "" && sessionFile.mod.Some? && sessionFile.content.Some?
    requires sessionFile.mod.value >= c.lastSessionMod
    ensures var main := LoadMain(c, model, mainFile);
      var now := ApplyLoads(c, main, LoadSession(c, main.Some?, sessionFile));
      var (m, s) := (mainFile.content.value, sessionFile.content.value);
      && now.lastModel == model && now.memory == m.memory
      && now.limits.tokens == (if s.tokens.Some? then s.tokens.value else m.limits.tokens)
      && now.limits.toolTurns == (if s.toolTurns.Some? then s.toolTurns.value else m.limits.toolTurns)
      && now.limits.historyTurns == (if s.historyTurns.Some? then s.historyTurns.value else m.limits.historyTurns)
  {
    hide LoadMain, LoadSession, ApplyLoads;
    RefreshExactly(c, model, mainFile, sessionFile);
  }

  // ---------------------------------------------------------------- interleaved refreshes

  datatype Stage = Snapped | MainRead | SessionRead | Finished
  datatype Refresh = Refresh(model: string, snap: Cache, main: Option<MainLoad>, sess: Option<SessionLoad>,
          stage: Stage)

  /** The cache, the refreshes so far, and the loads applied last. */
  datatype State = State(cache: Cache, refreshes: seq<Refresh>, main: Option<MainLoad>, sess: Option<SessionLoad>)

  datatype Step =
    | Begin(model: string)
    | ReadMain(r: nat, mainFile: FileRead<MainConfig>)
    | ReadSession(r: nat, sessionFile: FileRead<SessionConfig>)
    | Finish(r: nat)
    | SetLimits(limits: Limits)
    | SetPaths(mainPath: string, sessionPath: string)

  predicate At(s: State, r: nat, stage: Stage) { r < |s.refreshes| && s.refreshes[r].stage == stage }

  predicate Enabled(s: State, step: Step) {
    match step
    case Begin(_) => true
    case ReadMain(r, _) => At(s, r, Snapped)
    case ReadSession(r, _) => At(s, r, MainRead)
    case Finish(r) => At(s, r, SessionRead)
    case SetLimits(_) => true
    case SetPaths(_, _) => true
  }

  function Apply(s: State, step: Step): State
    requires Enabled(s, step)
  {
    match step
    case Begin(model) => s.(refreshes := s.refreshes + [Refresh(model, s.cache, None, None, Snapped)])
    case ReadMain(r, file) =>
      var x := s.refreshes[r];
      s.(refreshes := s.refreshes[r := x.(main := LoadMain(x.snap, x.model, file), stage := MainRead)])
    case ReadSession(r, file) =>
      var x := s.refreshes[r];
      s.(refreshes := s.refreshes[r := x.(sess := LoadSession(x.snap, x.main.Some?, file), stage := SessionRead)])
    case Finish(r) =>
      var x := s.refreshes[r];
      s.(cache := ApplyLoads(s.cache, x.main, x.sess),
         refreshes := s.refreshes[r := x.(stage := Finished)],
         main := if AcceptsMain(s.cache, x.main) then x.main else s.main,
         sess := if AcceptsSession(s.cache, x.sess) then x.sess else s.sess)
    case SetLimits(l) => s.(cache := WithLimits(s.cache, l))
    case SetPaths(main, sess) => s.(cache := s.cache.(mainPath := main, sessionPath := sess))
  }

  function Run(limits: Limits, steps: seq<Step>): Option<State> {
    if steps == [] then Some(State(Fresh(limits), [], None, None))
    else
      var before := Run(limits, steps[..|steps| - 1]);
      var step := steps[|steps| - 1];
      if before.Some? && Enabled(before.value, step) then Some(Apply(before.value, step)) else None
  }

  /** The cached main fields are those of the one load that was applied last. */
  predicate FromOneLoad(c: Cache, main: Option<MainLoad>) {
    if main.None? then
      c.lastMainMod == ZERO_TIME && c.lastModel == "" && c.contextWindow == DEFAULT_WINDOW && c.memory == DEFAULT_MEMORY
    else
      var l := main.value;
      && c.lastMainMod == l.mod && c.lastModel == l.model
      && c.contextWindow == ResolveContextWindow(l.cfg, l.model) && c.memory == l.cfg.memory
  }

  predicate HasFinished(x: Refresh) { x.stage == Finished }

  predicate Loaded(s: State, main: MainLoad) {
    exists r | 0 <= r < |s.refreshes| :: HasFinished(s.refreshes[r]) && s.refreshes[r].main == Some(main)
  }

  /** Nothing that a finished refresh had loaded is newer than the cache. */
  predicate UpToDate(s: State) {
    forall r | 0 <= r < |s.refreshes| && HasFinished(s.refreshes[r]) ::
      && (s.refreshes[r].main.Some? ==> s.refreshes[r].main.value.mod <= s.cache.lastMainMod)
      && (s.refreshes[r].sess.Some? ==> s.refreshes[r].sess.value.mod <= s.cache.lastSessionMod)
  }

  predicate Consistent(s: State) {
    FromOneLoad(s.cache, s.main) && UpToDate(s) && (s.main.Some? ==> Loaded(s, s.main.value))
  }

  lemma {:induction false} FinishKeeps(s: State, r: nat)
    requires Consistent(s) && Enabled(s, Finish(r))
    ensures Consistent(Apply(s, Finish(r)))
  {
    var s' := Apply(s, Finish(r));
    if AcceptsMain(s.cache, s.refreshes[r].main) {
      assert HasFinished(s'.refreshes[r]);
    } else if s.main.Some? {
      LoadedStays(s, s', s.main.value);
    }
  }

  lemma {:induction false} LoadedStays(s: State, s': State, main: MainLoad)
    requires Loaded(s, main) && |s'.refreshes| >= |s.refreshes|
    requires forall r | 0 <= r < |s.refreshes| :: HasFinished(s.refreshes[r]) ==> s'.refreshes[r] == s.refreshes[r]
    ensures Loaded(s', main)
  {
    var r :| 0 <= r < |s.refreshes| && HasFinished(s.refreshes[r]) && s.refreshes[r].main == Some(main);
    assert HasFinished(s'.refreshes[r]);
  }

  lemma {:induction false} StepKeeps(s: State, step: Step)
    requires Consistent(s) && Enabled(s, step)
    ensures Consistent(Apply(s, step))
    ensures s.cache.lastMainMod <= Apply(s, step).cache.lastMainMod
    ensures s.cache.lastSessionMod <= Apply(s, step).cache.lastSessionMod
  {
    var s' := Apply(s, step);
    if step.Finish? { FinishKeeps(s, step.r); }
    else if s.main.Some? { LoadedStays(s, s', s.main.value); }
  }

  /** However refreshes interleave, memory config, context window and model always come from
      one load of a finished refresh, the one whose time is cached, and no finished refresh
      had loaded anything newer. */
  lemma {:induction false} AlwaysConsistent(limits: Limits, steps: seq<Step>)
    requires Run(limits, steps).Some?
    ensures Consistent(Run(limits, steps).value)
  {
    if steps != [] {
      AlwaysConsistent(limits, steps[..|steps| - 1]);
      StepKeeps(Run(limits, steps[..|steps| - 1]).value, steps[|steps| - 1]);
    }
  }

  /** The cached times never move back. */
  lemma {:induction false} TimesOnlyGrow(limits: Limits, steps: seq<Step>, k: nat)
    requires k <= |steps| && Run(limits, steps).Some?
    ensures Run(limits, steps[..k]).Some?
    ensures Run(limits, steps[..k]).value.cache.lastMainMod <= Run(limits, steps).value.cache.lastMainMod
    ensures Run(limits, steps[..k]).value.cache.lastSessionMod <= Run(limits, steps).value.cache.lastSessionMod
    decreases |steps|
  {
    if k == |steps| {
      assert steps[..k] == steps;
    } else {
      var front := steps[..|steps| - 1];
      TimesOnlyGrow(limits, front, k);
      assert front[..k] == steps[..k];
      AlwaysConsistent(limits, front);
      StepKeeps(Run(limits, front).value, steps[|steps| - 1]);
    }
  }

  // ---------------------------------------------------------------- session overrides

  /** The cache with the loads applied last. */
  datatype Applied = Applied(cache: Cache, main: Option<MainLoad>, sess: Option<SessionLoad>)

  /** The limits that the loads stand for: the main ones, or the initial ones before any, with
      the session's overrides. */
  function Due(initial: Limits, a: Applied): Limits {
    var main := MainLimits(initial, a);
    if a.sess.Some? then Overlay(main, a.sess.value.cfg) else main
  }

  function MainLimits(initial: Limits, a: Applied): Limits {
    if a.main.Some? then a.main.value.cfg.limits else initial
  }

  predicate IsDue(initial: Limits, a: Applied) { a.cache.limits == Due(initial, a) }

  function AfterLoads(a: Applied, main: Option<MainLoad>, sess: Option<SessionLoad>): Applied {
    Applied(ApplyLoads(a.cache, main, sess),
            if AcceptsMain(a.cache, main) then main else a.main,
            if AcceptsSession(a.cache, sess) then sess else a.sess)
  }

  /** An override that is not seen: there is none, or it says what the main file says. */
  predicate Unseen(override: Option<int>, main: int) { override.None? || override.value == main }

  predicate AllUnseen(sess: SessionConfig, main: Limits) {
    && Unseen(sess.tokens, main.tokens)
    && Unseen(sess.toolTurns, main.toolTurns)
    && Unseen(sess.historyTurns, main.historyTurns)
  }

  /** The new session file drops no override of the last one that is seen. */
  predicate DropsNone(last: SessionConfig, now: SessionConfig, main: Limits) {
    && (now.tokens.Some? || Unseen(last.tokens, main.tokens))
    && (now.toolTurns.Some? || Unseen(last.toolTurns, main.toolTurns))
    && (now.historyTurns.Some? || Unseen(last.historyTurns, main.historyTurns))
  }

  /** A manual limit leaves the one that is due, or says the same. */
  predicate Leaves(value: int, due: int) { value < 0 || value == due }

  predicate LeavesAll(l: Limits, due: Limits) {
    Leaves(l.tokens, due.tokens) && Leaves(l.toolTurns, due.toolTurns) && Leaves(l.historyTurns, due.historyTurns)
  }

  /** What the loads of a refresh that finishes must be: no main configuration applied without
      its session over overrides that are seen, no session applied alone that drops one. */
  predicate LoadsGuarded(initial: Limits, a: Applied, main: Option<MainLoad>, sess: Option<SessionLoad>) {
    a.sess.Some? ==>
      if AcceptsMain(a.cache, main) then
        AcceptsSession(a.cache, sess) || AllUnseen(a.sess.value.cfg, main.value.cfg.limits)
      else
        AcceptsSession(a.cache, sess) ==> DropsNone(a.sess.value.cfg, sess.value.cfg, MainLimits(initial, a))
  }

  lemma {:induction false} OverlayIsMain(main: Limits, sess: SessionConfig)
    ensures Overlay(main, sess) == main <==> AllUnseen(sess, main)
  {
  }

  lemma {:induction false} OverlayTwice(main: Limits, last: SessionConfig, now: SessionConfig)
    ensures Overlay(Overlay(main, last), now) == Overlay(main, now) <==> DropsNone(last, now, main)
  {
  }

  /** Exactly which loads keep the limits due. */
  lemma {:induction false} LoadsKeepDue(initial: Limits, a: Applied, main: Option<MainLoad>, sess: Option<SessionLoad>)
    requires IsDue(initial, a)
    ensures IsDue(initial, AfterLoads(a, main, sess)) <==> LoadsGuarded(initial, a, main, sess)
  {
    hide Overlay, AllUnseen, DropsNone;
    if a.sess.Some? {
      if AcceptsMain(a.cache, main) { OverlayIsMain(main.value.cfg.limits, a.sess.value.cfg); }
      if AcceptsSession(a.cache, sess) { OverlayTwice(MainLimits(initial, a), a.sess.value.cfg, sess.value.cfg); }
    }
  }

  /** A refresh that applies its main configuration decides anew, whatever the limits were. */
  lemma {:induction false} MainDecides(initial: Limits, a: Applied, main: Option<MainLoad>, sess: Option<SessionLoad>)
    requires AcceptsMain(a.cache, main)
    ensures IsDue(initial, AfterLoads(a, main, sess)) <==> LoadsGuarded(initial, a, main, sess)
  {
    hide Overlay, AllUnseen;
    if a.sess.Some? { OverlayIsMain(main.value.cfg.limits, a.sess.value.cfg); }
  }

  lemma {:induction false} ManualKeepsDue(initial: Limits, a: Applied, l: Limits)
    requires IsDue(initial, a)
    ensures IsDue(initial, a.(cache := WithLimits(a.cache, l))) <==> LeavesAll(l, Due(initial, a))
  {
  }

  // ---------------------------------------------------------------- over interleaved runs

  function Loads(s: State): Applied { Applied(s.cache, s.main, s.sess) }

  predicate StepGuarded(initial: Limits, s: State, step: Step)
    requires Enabled(s, step)
  {
    match step
    case Finish(r) => LoadsGuarded(initial, Loads(s), s.refreshes[r].main, s.refreshes[r].sess)
    case SetLimits(l) => LeavesAll(l, Due(initial, Loads(s)))
    case _ => true
  }

  lemma {:induction false} StepKeepsDue(initial: Limits, s: State, step: Step)
    requires IsDue(initial, Loads(s)) && Enabled(s, step)
    ensures IsDue(initial, Loads(Apply(s, step))) <==> StepGuarded(initial, s, step)
  {
    hide LoadsGuarded, LeavesAll, Due;
    match step
    case Finish(r) =>
      var x := s.refreshes[r];
      LoadsKeepDue(initial, Loads(s), x.main, x.sess);
      assert Loads(Apply(s, step)) == AfterLoads(Loads(s), x.main, x.sess);
    case SetLimits(l) => ManualKeepsDue(initial, Loads(s), l);
    case _ => SameDue(initial, Loads(s), Loads(Apply(s, step)));
  }

  lemma {:induction false} SameDue(initial: Limits, a: Applied, b: Applied)
    requires a.main == b.main && a.sess == b.sess
    ensures Due(initial, a) == Due(initial, b)
  {
  }

  predicate AlwaysDue(limits: Limits, steps: seq<Step>)
    requires Run(limits, steps).Some?
  {
    IsDue(limits, Loads(Run(limits, steps).value)) && (steps != [] ==> AlwaysDue(limits, steps[..|steps| - 1]))
  }

  predicate AllGuarded(limits: Limits, steps: seq<Step>)
    requires Run(limits, steps).Some?
  {
    steps != [] ==>
      && AllGuarded(limits, steps[..|steps| - 1])
      && StepGuarded(limits, Run(limits, steps[..|steps| - 1]).value, steps[|steps| - 1])
  }

  /** However refreshes interleave, the limits are the main configuration's with the session's
      overrides in every state of a run exactly when every finishing refresh and every manual
      change met its guard. */
  lemma {:induction false} OverridesKeptExactly(limits: Limits, steps: seq<Step>)
    requires Run(limits, steps).Some?
    ensures AlwaysDue(limits, steps) <==> AllGuarded(limits, steps)
  {
    hide IsDue, StepGuarded;
    if steps == [] {
      InitiallyDue(limits);
    } else {
      var front := steps[..|steps| - 1];
      OverridesKeptExactly(limits, front);
      if AlwaysDue(limits, front) {
        DueNow(limits, front);
        StepKeepsDue(limits, Run(limits, front).value, steps[|steps| - 1]);
      }
    }
  }

  lemma {:induction false} InitiallyDue(limits: Limits)
    ensures IsDue(limits, Loads(Run(limits, []).value))
  {
  }

  lemma {:induction false} DueNow(limits: Limits, steps: seq<Step>)
    requires Run(limits, steps).Some? && AlwaysDue(limits, steps)
    ensures IsDue(limits, Loads(Run(limits, steps).value))
  {
  }

  // ---------------------------------------------------------------- refreshes without overlap

  /** A refresh that nothing interrupts, with the model asked for and what its reads give; or a
      manual change. */
  datatype Call =
    | Refreshing(model: string, mainFile: FileRead<MainConfig>, sessionFile: FileRead<SessionConfig>)
    | Setting(limits: Limits)

  function MainOf(c: Cache, call: Call): Option<MainLoad>
    requires call.Refreshing?
  {
    LoadMain(c, call.model, call.mainFile)
  }

  function SessionOf(c: Cache, call: Call): Option<SessionLoad>
    requires call.Refreshing?
  {
    LoadSession(c, MainOf(c, call).Some?, call.sessionFile)
  }

  function AfterCall(a: Applied, call: Call): Applied {
    match call
    case Refreshing(_, _, _) => AfterLoads(a, MainOf(a.cache, call), SessionOf(a.cache, call))
    case Setting(l) => a.(cache := WithLimits(a.cache, l))
  }

  function AfterCalls(a: Applied, calls: seq<Call>): Applied {
    if calls == [] then a else AfterCall(AfterCalls(a, calls[..|calls| - 1]), calls[|calls| - 1])
  }

  predicate CallGuarded(initial: Limits, a: Applied, call: Call) {
    match call
    case Refreshing(_, _, _) => LoadsGuarded(initial, a, MainOf(a.cache, call), SessionOf(a.cache, call))
    case Setting(l) => LeavesAll(l, Due(initial, a))
  }

  predicate AlwaysDueAlone(initial: Limits, a: Applied, calls: seq<Call>) {
    IsDue(initial, AfterCalls(a, calls)) && (calls != [] ==> AlwaysDueAlone(initial, a, calls[..|calls| - 1]))
  }

  predicate CallsGuarded(initial: Limits, a: Applied, calls: seq<Call>) {
    calls != [] ==>
      && CallsGuarded(initial, a, calls[..|calls| - 1])
      && CallGuarded(initial, AfterCalls(a, calls[..|calls| - 1]), calls[|calls| - 1])
  }

  lemma {:induction false} CallKeepsDue(initial: Limits, a: Applied, call: Call)
    requires IsDue(initial, a)
    ensures IsDue(initial, AfterCall(a, call)) <==> CallGuarded(initial, a, call)
  {
    hide IsDue, LoadsGuarded, LeavesAll, LoadMain, LoadSession;
    match call
    case Refreshing(_, _, _) => LoadsKeepDue(initial, a, MainOf(a.cache, call), SessionOf(a.cache, call));
    case Setting(l) => ManualKeepsDue(initial, a, l);
  }

  /** The same for calls that do not overlap: what a call has to meet can be told from the
      cache and the files before it. */
  lemma {:induction false} KeptAloneExactly(initial: Limits, a: Applied, calls: seq<Call>)
    requires IsDue(initial, a)
    ensures AlwaysDueAlone(initial, a, calls) <==> CallsGuarded(initial, a, calls)
  {
    hide IsDue, CallGuarded, AfterCall;
    if calls != [] {
      var front := calls[..|calls| - 1];
      KeptAloneExactly(initial, a, front);
      if AlwaysDueAlone(initial, a, front) { CallKeepsDue(initial, AfterCalls(a, front), calls[|calls| - 1]); }
    }
  }

  /** A session file that was ever loaded is still configured and readable, not dated back, and
      drops no override; nothing is set by hand. */
  predicate Steady(a: Applied, call: Call) {
    call.Refreshing? && (a.sess.Some? ==>
        && a.cache.sessionPath != ""
        && call.sessionFile.mod.Some? && call.sessionFile.mod.value >= a.cache.lastSessionMod
        && call.sessionFile.content.Some? && StillSets(a.sess.value.cfg, call.sessionFile.content.value))
  }

  /** The new session file still sets whatever the last one set. */
  predicate StillSets(last: SessionConfig, now: SessionConfig) {
    && (last.tokens.Some? ==> now.tokens.Some?)
    && (last.toolTurns.Some? ==> now.toolTurns.Some?)
    && (last.historyTurns.Some? ==> now.historyTurns.Some?)
  }

  predicate AllSteady(a: Applied, calls: seq<Call>) {
    calls == [] || (AllSteady(a, calls[..|calls| - 1]) &&
      Steady(AfterCalls(a, calls[..|calls| - 1]), calls[|calls| - 1]))
  }

  lemma {:induction false} SteadyIsGuarded(initial: Limits, a: Applied, call: Call)
    requires Steady(a, call)
    ensures CallGuarded(initial, a, call)
  {
  }

  /** Without overlap, over files that stay as they should, the limits are always the last
      main configuration's with the overrides of the last session. */
  lemma {:induction false} OverridesKeptAlone(initial: Limits, a: Applied, calls: seq<Call>)
    requires IsDue(initial, a) && AllSteady(a, calls)
    ensures IsDue(initial, AfterCalls(a, calls)) && CallsGuarded(initial, a, calls)
  {
    hide IsDue, CallGuarded, Steady, AfterCall;
    if calls != [] {
      var front := calls[..|calls| - 1];
      OverridesKeptAlone(initial, a, front);
      SteadyIsGuarded(initial, AfterCalls(a, front), calls[|calls| - 1]);
      CallKeepsDue(initial, AfterCalls(a, front), calls[|calls| - 1]);
    }
  }

  // ---------------------------------------------------------------- refreshes that overlap

  lemma {:induction false} RunSnoc(limits: Limits, steps: seq<Step>, step: Step)
    requires Run(limits, steps).Some? && Enabled(Run(limits, steps).value, step)
    ensures Run(limits, steps + [step]) == Some(Apply(Run(limits, steps).value, step))
  {
    assert (steps + [step])[..|steps|] == steps;
  }

  const ONES := MainConfig(Limits(1, 1, 1), map[], 0)
  const TWOS := MainConfig(Limits(2, 2, 2), map[], 0)
  const NINE := SessionConfig(Some(9), None, None)

  /** Two refreshes, both of which have read the session's override, one of them after the
      session file was touched. */
  lemma {:induction false} BothRead(limits: Limits) returns (steps: seq<Step>, s: State)
    ensures Run(limits, steps) == Some(s) && |s.refreshes| == 2 && At(s, 0, SessionRead) && At(s, 1, SessionRead)
    ensures s.cache.lastMainMod == s.cache.lastSessionMod == ZERO_TIME
    ensures s.refreshes[0].main == Some(MainLoad(10, ONES, "m")) && s.refreshes[0].sess == Some(SessionLoad(7, NINE))
    ensures s.refreshes[1].main == Some(MainLoad(20, TWOS, "m")) && s.refreshes[1].sess == Some(SessionLoad(5, NINE))
  {
    RunSnoc(limits, [], SetPaths("main", "session"));
    steps := [] + [SetPaths("main", "session")];
    RunSnoc(limits, steps, Begin("m"));
    steps := steps + [Begin("m")];
    RunSnoc(limits, steps, Begin("m"));
    steps := steps + [Begin("m")];
    s := Run(limits, steps).value;
    assert At(s, 0, Snapped) && At(s, 1, Snapped) && s.refreshes[0] == s.refreshes[1];
    RunSnoc(limits, steps, ReadMain(0, FileRead(Some(10), Some(ONES))));
    steps := steps + [ReadMain(0, FileRead(Some(10), Some(ONES)))];
    RunSnoc(limits, steps, ReadMain(1, FileRead(Some(20), Some(TWOS))));
    steps := steps + [ReadMain(1, FileRead(Some(20), Some(TWOS)))];
    RunSnoc(limits, steps, ReadSession(1, FileRead(Some(5), Some(NINE))));
    steps := steps + [ReadSession(1, FileRead(Some(5), Some(NINE)))];
    RunSnoc(limits, steps, ReadSession(0, FileRead(Some(7), Some(NINE))));
    steps := steps + [ReadSession(0, FileRead(Some(7), Some(NINE)))];
    s := Run(limits, steps).value;
  }

  /** Overlapping refreshes can lose the session's overrides, although both had read them. */
  lemma {:induction false} OverridesCanBeLost(limits: Limits) returns (steps: seq<Step>)
    ensures Run(limits, steps).Some?
    ensures var s := Run(limits, steps).value;
      && (forall x | x in s.refreshes :: HasFinished(x) && x.sess.Some? && x.sess.value.cfg == NINE)
      && s.cache.limits == TWOS.limits && s.cache.limits != Overlay(TWOS.limits, NINE)
    ensures !AllGuarded(limits, steps)
  {
    var s;
    steps, s := BothRead(limits);
    RunSnoc(limits, steps, Finish(0));
    RunSnoc(limits, steps + [Finish(0)], Finish(1));
    steps := steps + [Finish(0)] + [Finish(1)];
    OverridesKeptExactly(limits, steps);
  }
}
