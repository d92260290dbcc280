/** The implementer, verifier, updater loop (orchestrator/coding_loop.go). */
module CodingLoop {
  import opened Common
  import opened Values
  import opened Artifacts
  import opened EngineSpec
  import opened History
  import opened Transparency
  import opened Bounded
  import opened Text

  const IMPLEMENTER := "implementer"
  const VERIFIER := "verifier"
  const UPDATER := "updater"
  const DEFAULT_ITERATIONS := 5

  /** What an agent call leaves: its text and the artifacts it registered; None is an error. */
  datatype Reply = Reply(text: string, regs: seq<Artifact>)
  type Agent = NodeInput -> Option<Reply>

  datatype LoopConfig = LoopConfig(goal: string, maxIter: int, implement: Agent, verify: Agent, refine: Agent)

  function Iterations(cfg: LoopConfig): (m: int)
    ensures m >= 1
  {
    if cfg.maxIter <= 0 then DEFAULT_ITERATIONS else cfg.maxIter
  }

  function StepCap(cfg: LoopConfig): int {
    Iterations(cfg) * 4 + 2
  }

  function ImplementerStep(cfg: LoopConfig, i: NodeInput): NodeOutcome {
    var iter := if StateInt(i.state, "iteration") == 0 then 1 else StateInt(i.state, "iteration");
    match cfg.implement(i)
    case None => Failed
    case Some(r) =>
      Returned(map["changed_files" := Str(r.text), "iteration" := Int(iter), "last_agent" := Str(IMPLEMENTER)], r.regs)
  }

  function Passed(verdict: string): bool {
    verdict != "" && Contains(verdict, "VERIFY: PASS")
  }

  function VerifierStep(cfg: LoopConfig, i: NodeInput): NodeOutcome {
    match cfg.verify(i)
    case None => Failed
    case Some(r) =>
      Returned(map["verify_result" := Str(r.text), "status" := Str(if Passed(r.text) then "success" else "failed"),
                   "last_agent" := Str(VERIFIER)], r.regs)
  }

  function UpdaterStep(cfg: LoopConfig, i: NodeInput): NodeOutcome {
    match cfg.refine(i)
    case None => Failed
    case Some(r) =>
      Returned(map["refined_prompt" := Str(r.text), "iteration" := Int(StateInt(i.state, "iteration") + 1),
                   "last_agent" := Str(UPDATER)], r.regs)
  }

  function RouteVerdict(s: State): string {
    if GetString(s, "status") == "success" then END
    else if StateInt(s, "iteration") >= StateInt(s, "max_iter") then END
    else UPDATER
  }

  function Loop(cfg: LoopConfig): Graph {
    Graph(map[IMPLEMENTER := (i: NodeInput) => ImplementerStep(cfg, i),
              VERIFIER := (i: NodeInput) => VerifierStep(cfg, i),
              UPDATER := (i: NodeInput) => UpdaterStep(cfg, i)],
          map[IMPLEMENTER := VERIFIER, UPDATER := IMPLEMENTER],
          map[VERIFIER := RouteVerdict], map[], IMPLEMENTER)
  }

  function InitialState(cfg: LoopConfig): State {
    map["goal" := Str(cfg.goal), "max_iter" := Int(Iterations(cfg)), "iteration" := Int(1), "status" := Str("running")]
  }

  /** The result a caller reads off the final state. */
  datatype LoopResult = LoopResult(success: bool, iterations: int)

  function ResultOf(s: State): LoopResult {
    LoopResult(GetString(s, "status") == "success", StateInt(s, "iteration"))
  }

  /** The iteration counter and the node determine the engine's step counter; the loop is
      over only after a success or in the last iteration. */
  predicate Counted(cfg: LoopConfig, c: Cursor) {
    var m, i := Iterations(cfg), StateInt(c.state, "iteration");
    && StateInt(c.state, "max_iter") == m && 1 <= i <= m
    && if c.node == IMPLEMENTER then c.step == 3 * i - 3
       else if c.node == VERIFIER then c.step == 3 * i - 2
       else if c.node == UPDATER then i < m && c.step == 3 * i - 1
       else c.node == END && c.step == 3 * i - 1 && (GetString(c.state, "status") == "success" || i == m)
  }

  function CountedIn(cfg: LoopConfig): Invariant {
    c => Counted(cfg, c)
  }

  /** The bound on super-steps. */
  function Bound(cfg: LoopConfig): int {
    3 * Iterations(cfg) - 1
  }

  lemma PlainMerge(cfg: LoopConfig, s: State, u: Update, key: string)
    ensures Lookup(Merged(s, u, Loop(cfg).reducers), key) == if key in u then u[key] else Lookup(s, key)
  {
  }

  lemma VerifierKeepsCount(cfg: LoopConfig, c: Cursor, resume: Value, sessions: map<string, Payload>)
    requires Counted(cfg, c) && c.node == VERIFIER
    ensures Guided(Loop(cfg), CountedIn(cfg), Bound(cfg), c, resume, sessions)
  {
    match VerifierStep(cfg, NodeInput(c.state, resume, sessions))
    case Returned(upd, _) =>
      PlainMerge(cfg, c.state, upd, "iteration");
      PlainMerge(cfg, c.state, upd, "max_iter");
      PlainMerge(cfg, c.state, upd, "status");
    case _ =>
  }

  lemma StepKeepsCount(cfg: LoopConfig, c: Cursor, resume: Value, sessions: map<string, Payload>)
    requires Counted(cfg, c) && !AtEnd(c.node)
    ensures Guided(Loop(cfg), CountedIn(cfg), Bound(cfg), c, resume, sessions)
  {
    if c.node == VERIFIER {
      VerifierKeepsCount(cfg, c, resume, sessions);
    } else {
      match Loop(cfg).nodes[c.node](NodeInput(c.state, resume, sessions))
      case Returned(upd, _) =>
        PlainMerge(cfg, c.state, upd, "iteration");
        PlainMerge(cfg, c.state, upd, "max_iter");
      case _ =>
    }
  }

  lemma LoopIsGuided(cfg: LoopConfig)
    ensures Guides(Loop(cfg), CountedIn(cfg), Bound(cfg))
  {
    forall c: Cursor, resume: Value, sessions: map<string, Payload> | CountedIn(cfg)(c) && !AtEnd(c.node)
      ensures Guided(Loop(cfg), CountedIn(cfg), Bound(cfg), c, resume, sessions)
    {
      StepKeepsCount(cfg, c, resume, sessions);
    }
  }

  /** Over every history of crashes and resumes the iteration counter gives the engine's step
      counter exactly; a thread holds at most 3 * MaxIter - 1 super-steps; and a finished
      loop either succeeded or used up all its iterations. */
  lemma LoopHistoriesAreCounted(cfg: LoopConfig, recs: seq<Rec>, cmds: seq<Command>)
    requires Lawful(Loop(cfg), InitialState(cfg), recs, cmds) && AllBare(cmds)
    ensures var tip := Tip(Loop(cfg), InitialState(cfg), recs);
      && Counted(cfg, tip) && |Erase(recs)| == tip.step <= 3 * Iterations(cfg) - 1 < StepCap(cfg)
      && (AtEnd(tip.node) ==> ResultOf(tip.state).success || ResultOf(tip.state).iterations == Iterations(cfg))
  {
    LoopIsGuided(cfg);
    assert CountedIn(cfg)(Cursor(Loop(cfg).entry, InitialState(cfg), 0));
    HistoriesAreGuided(Loop(cfg), CountedIn(cfg), Bound(cfg), InitialState(cfg), recs, cmds);
    SuperStepsAreBounded(Loop(cfg), CountedIn(cfg), Bound(cfg), InitialState(cfg), recs, cmds);
  }

  /** No coding loop ever trips its step cap or meets an unknown node or route, and left
      alone it stops by itself. */
  lemma LoopRunsStop(cfg: LoopConfig, fits: bool, sessions: map<string, Payload>, c: Cursor, resume: Value,
                     parent: string, env: seq<Tick>)
    requires Counted(cfg, c)
    ensures var stop := RunLoop(Loop(cfg), StepCap(cfg), fits, sessions, c, resume, parent, env).stop;
      !OutOfBounds(stop) && (fits && Undisturbed(env) && |env| >= 3 * Iterations(cfg) - 1 - c.step ==> Natural(stop))
  {
    LoopIsGuided(cfg);
    GuidedRunsStop(Loop(cfg), CountedIn(cfg), Bound(cfg), StepCap(cfg), fits, sessions, c, resume, parent, env);
  }

  /** Every agent answers, and the verifier never passes. */
  ghost predicate Hopeless(cfg: LoopConfig) {
    forall i :: cfg.implement(i).Some? && cfg.refine(i).Some? && cfg.verify(i).Some?
      && !Passed(cfg.verify(i).value.text)
  }

  /** A loop that has not succeeded so far. */
  function Failing(cfg: LoopConfig): Invariant {
    c => Counted(cfg, c) && GetString(c.state, "status") != "success"
  }

  lemma HopelessPushes(cfg: LoopConfig, c: Cursor, resume: Value, sessions: map<string, Payload>)
    requires Hopeless(cfg) && Failing(cfg)(c) && !AtEnd(c.node)
    ensures Pushes(Loop(cfg), Failing(cfg), Bound(cfg), c, resume, sessions)
  {
    StepKeepsCount(cfg, c, resume, sessions);
    var input := NodeInput(c.state, resume, sessions);
    var _ := cfg.verify(input);
    match Loop(cfg).nodes[c.node](input)
    case Returned(upd, _) => PlainMerge(cfg, c.state, upd, "status");
    case _ =>
  }

  /** The bound is tight: a loop that never passes uses exactly 3 * MaxIter - 1 super-steps. */
  lemma HopelessLoopsReachTheBound(cfg: LoopConfig, parent: string, env: seq<Tick>)
    requires Hopeless(cfg) && Undisturbed(env) && |env| >= 3 * Iterations(cfg) - 1
    ensures var out := RunLoop(Loop(cfg), StepCap(cfg), true, map[], Cursor(IMPLEMENTER, InitialState(cfg), 0), Nil,
                               parent, env);
      out.stop == Completed && |out.recs| == 3 * Iterations(cfg) - 1
  {
    forall c: Cursor, resume: Value, sessions: map<string, Payload> | Failing(cfg)(c) && !AtEnd(c.node)
      ensures Pushes(Loop(cfg), Failing(cfg), Bound(cfg), c, resume, sessions)
    {
      HopelessPushes(cfg, c, resume, sessions);
    }
    RunsReachTheBound(Loop(cfg), Failing(cfg), Bound(cfg), StepCap(cfg), map[],
                      Cursor(IMPLEMENTER, InitialState(cfg), 0), Nil, parent, env);
  }
}
