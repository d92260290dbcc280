/** The star-topology supervisor (orchestrator/supervisor.go): its graph, the approval gate
    in front of workers, and the bounds and guarantees that follow for every history. */
module Supervisor {
  import opened Common
  import opened Values
  import opened Artifacts
  import opened EngineSpec
  import opened History
  import opened Transparency
  import opened Bounded
  import opened Text

  const SUPERVISOR := "supervisor"
  const DEFAULT_HOPS := 12

  datatype Decision = Decision(next: string, reason: string, task: string)

  /** A worker body returns text, fails, or (only a custom one) asks for an interrupt itself. */
  datatype WorkResult =
    | Reported(text: string, regs: seq<Artifact>)
    | Wants(value: Value, regs: seq<Artifact>)
    | Broke

  type Body = (NodeInput, string) -> WorkResult

  datatype Worker = Worker(id: string, body: Body)

  /** `decide` stands for the caller's function or the model call; None is an error. */
  datatype SupervisorConfig = SupervisorConfig(
    goal: string, workers: seq<Worker>, maxSteps: int, approvals: set<string>, decide: State -> Option<Decision>)

  function Hops(cfg: SupervisorConfig): (m: int)
    ensures m >= 1
  {
    if cfg.maxSteps <= 0 then DEFAULT_HOPS else cfg.maxSteps
  }

  function StepCap(cfg: SupervisorConfig): int {
    Hops(cfg) * 2 + 2
  }

  function NormalizeNext(next: string): string {
    var n := TrimSpace(next);
    if ToLower(n) in {"end", "__end__", "finish", "done", "stop"} then END else n
  }

  function ApprovalTruthy(v: Value): bool {
    match v
    case Bool(b) => b
    case Str(s) => ToLower(TrimSpace(s)) in {"true", "yes", "y", "approve", "1"}
    case _ => false
  }

  function Ids(workers: seq<Worker>): set<string> {
    set i | 0 <= i < |workers| :: workers[i].id
  }

  function FieldOf(v: Value, key: string): string {
    match v
    case Dict(fields) => GetString(fields, key)
    case _ => ""
  }

  function TaskOf(s: State): string {
    var task := FieldOf(Lookup(s, "handoff"), "task");
    if task == "" then GetString(s, "goal") else task
  }

  /** The task that a decision gives to its worker. */
  function TaskGiven(d: Decision, s: State): string {
    if d.task == "" then GetString(s, "goal") else d.task
  }

  /** What the human is shown before a gated worker runs. */
  function ApprovalPayload(worker: string, s: State): Value {
    Dict(map["worker" := Str(worker), "task" := Str(TaskOf(s)),
             "reason" := Str(FieldOf(Lookup(s, "handoff"), "reason")), "goal" := Str(GetString(s, "goal"))])
  }

  function Truncate(s: string, n: nat): string {
    var t := TrimSpace(s);
    if n == 0 || |t| <= n then t else t[..n] + "\U{2026}"
  }

  // ------------------------------------------------------------------ the graph

  function SupervisorStep(cfg: SupervisorConfig, s: State): NodeOutcome {
    var step, limit := StateInt(s, "step"), StateInt(s, "max_steps");
    if limit > 0 && step >= limit then Returned(map["next" := Str(END), "last_agent" := Str(SUPERVISOR)], [])
    else
      match cfg.decide(s)
      case None => Failed
      case Some(d) =>
        var next := NormalizeNext(d.next);
        if next != END && next !in Ids(cfg.workers) then Failed
        else
          var handoff := Dict(map["from" := Str(SUPERVISOR), "to" := Str(next), "reason" := Str(d.reason),
                                  "task" := Str(TaskGiven(d, s))]);
          Returned(map["next" := Str(next), "handoff" := handoff,
                       "messages" := Str("[supervisor \U{2192} " + next + "] " + d.reason),
                       "last_agent" := Str(SUPERVISOR), "step" := Int(step + 1)], [])
  }

  function WorkerStep(cfg: SupervisorConfig, w: Worker, i: NodeInput): NodeOutcome {
    if w.id in cfg.approvals && i.resume == Nil then Asked(ApprovalPayload(w.id, i.state), [])
    else if w.id in cfg.approvals && !ApprovalTruthy(i.resume) then Failed
    else
      match w.body(i, TaskOf(i.state))
      case Broke => Failed
      case Wants(value, regs) => Asked(value, regs)
      case Reported(text, regs) =>
        Returned(map["last_agent" := Str(w.id), "last_output" := Str(text),
                     "messages" := Str("[" + w.id + "] " + Truncate(text, 400))], regs)
  }

  function WorkerIndex(workers: seq<Worker>, id: string): (i: nat)
    requires id in Ids(workers)
    ensures i < |workers| && workers[i].id == id
  {
    if workers[|workers| - 1].id == id then |workers| - 1
    else
      assert id in Ids(workers[..|workers| - 1]) by {
        var k :| 0 <= k < |workers| && workers[k].id == id;
        assert workers[..|workers| - 1][k].id == id;
      }
      WorkerIndex(workers[..|workers| - 1], id)
  }

  function WorkerNamed(cfg: SupervisorConfig, id: string): (w: Worker)
    requires id in Ids(cfg.workers)
    ensures w.id == id
  {
    cfg.workers[WorkerIndex(cfg.workers, id)]
  }

  function SupervisorNode(cfg: SupervisorConfig): NodeFn {
    (i: NodeInput) => SupervisorStep(cfg, i.state)
  }

  function WorkerNode(cfg: SupervisorConfig, w: Worker): NodeFn {
    (i: NodeInput) => WorkerStep(cfg, w, i)
  }

  function RouteNext(s: State): string {
    var next := GetString(s, "next");
    if next == "" || next == END then END else next
  }

  /** The supervisor in the middle, an edge back from every worker. */
  function Star(cfg: SupervisorConfig): Graph {
    Graph(map n | n in {SUPERVISOR} + Ids(cfg.workers) ::
            if n in Ids(cfg.workers) then WorkerNode(cfg, WorkerNamed(cfg, n)) else SupervisorNode(cfg),
          map n | n in Ids(cfg.workers) :: SUPERVISOR,
          map[SUPERVISOR := RouteNext],
          map["messages" := AppendSlice],
          SUPERVISOR)
  }

  predicate LegalID(id: string) {
    id != "" && id != SUPERVISOR && id != END && id != START
  }

  predicate LegalWorkers(workers: seq<Worker>) {
    && workers != []
    && (forall i :: 0 <= i < |workers| ==> LegalID(workers[i].id))
    && (forall i, j :: 0 <= i < j < |workers| ==> workers[i].id != workers[j].id)
  }

  function InitialState(cfg: SupervisorConfig): State {
    map["goal" := Str(cfg.goal), "max_steps" := Int(Hops(cfg)), "step" := Int(0), "messages" := List([])]
  }

  // ------------------------------------------------------------------ step bounds

  /** The hop counter in the state determines the engine's step counter exactly. */
  predicate Counted(cfg: SupervisorConfig, c: Cursor) {
    var m, hops := Hops(cfg), StateInt(c.state, "step");
    && StateInt(c.state, "max_steps") == m && 0 <= hops <= m
    && if c.node == SUPERVISOR then c.step == 2 * hops
       else if c.node in Ids(cfg.workers) then hops >= 1 && c.step == 2 * hops - 1
       else c.node == END && (c.step == 2 * hops - 1 || (hops == m && c.step == 2 * m + 1))
  }

  ghost predicate Origin(cfg: SupervisorConfig, s: State) {
    StateInt(s, "max_steps") == Hops(cfg) && StateInt(s, "step") == 0
  }

  /** Merging a plain update of keys other than the message list. */
  lemma PlainMerge(cfg: SupervisorConfig, s: State, u: Update, key: string)
    requires key != "messages"
    ensures Lookup(Merged(s, u, Star(cfg).reducers), key) == if key in u then u[key] else Lookup(s, key)
  {
  }

  lemma SupervisorRoutes(cfg: SupervisorConfig, c: Cursor, resume: Value, sessions: map<string, Payload>, upd: Update,
                         regs: seq<Artifact>)
    requires c.node == SUPERVISOR && SUPERVISOR !in Ids(cfg.workers)
    requires SupervisorStep(cfg, c.state) == Returned(upd, regs)
    requires LegalWorkers(cfg.workers) && HopUpdate(cfg, c.state, upd)
    ensures Attempt(Star(cfg), c, resume, sessions) ==
      Advanced(Rec(upd["next"].s, Merged(c.state, upd, Star(cfg).reducers), c.step + 1, false, Nil, Collect(regs)))
  {
    assert Star(cfg).nodes[SUPERVISOR] == SupervisorNode(cfg);
    PlainMerge(cfg, c.state, upd, "next");
  }

  /** A hop of the supervisor ends the run at the limit without counting, and otherwise
      counts one hop and names the end or a worker. */
  predicate HopUpdate(cfg: SupervisorConfig, s: State, upd: Update) {
    var step, limit := StateInt(s, "step"), StateInt(s, "max_steps");
    && "next" in upd && upd["next"].Str? && "max_steps" !in upd
    && if limit > 0 && step >= limit then upd["next"].s == END && "step" !in upd
       else (upd["next"].s == END || upd["next"].s in Ids(cfg.workers)) && "step" in upd && upd["step"] == Int(step + 1)
  }

  lemma SupervisorHops(cfg: SupervisorConfig, s: State)
    ensures !SupervisorStep(cfg, s).Asked?
    ensures SupervisorStep(cfg, s).Returned? ==> HopUpdate(cfg, s, SupervisorStep(cfg, s).upd)
  {
  }

  lemma CountedAfterHop(cfg: SupervisorConfig, c: Cursor, upd: Update)
    requires LegalWorkers(cfg.workers) && Counted(cfg, c) && c.node == SUPERVISOR && HopUpdate(cfg, c.state, upd)
    ensures Counted(cfg, Cursor(upd["next"].s, Merged(c.state, upd, Star(cfg).reducers), c.step + 1))
  {
    PlainMerge(cfg, c.state, upd, "step");
    PlainMerge(cfg, c.state, upd, "max_steps");
  }

  lemma SupervisorKeepsCount(cfg: SupervisorConfig, c: Cursor, resume: Value, sessions: map<string, Payload>)
    requires LegalWorkers(cfg.workers) && Counted(cfg, c) && c.node == SUPERVISOR
    ensures var o := Attempt(Star(cfg), c, resume, sessions);
      match o
      case Advanced(rec) => Counted(cfg, Cursor(rec.node, rec.state, rec.step))
      case Paused(_) => false
      case Crashed(_, e) => e == NodeFailed
  {
    assert Star(cfg).nodes[SUPERVISOR] == SupervisorNode(cfg);
    SupervisorHops(cfg, c.state);
    var o := SupervisorStep(cfg, c.state);
    if o.Returned? {
      SupervisorRoutes(cfg, c, resume, sessions, o.upd, o.regs);
      CountedAfterHop(cfg, c, o.upd);
    }
  }

  lemma WorkerKeepsCount(cfg: SupervisorConfig, c: Cursor, resume: Value, sessions: map<string, Payload>)
    requires LegalWorkers(cfg.workers) && Counted(cfg, c) && c.node in Ids(cfg.workers)
    ensures var o := Attempt(Star(cfg), c, resume, sessions);
      match o
      case Advanced(rec) => rec.node == SUPERVISOR && Counted(cfg, Cursor(rec.node, rec.state, rec.step))
      case Paused(rec) => Counted(cfg, Cursor(rec.node, rec.state, rec.step))
      case Crashed(_, e) => e == NodeFailed
  {
    WorkerAttempts(cfg, c, resume, sessions);
    match WorkerStep(cfg, WorkerNamed(cfg, c.node), NodeInput(c.state, resume, sessions))
    case Returned(upd, regs) => CountedAfterWork(cfg, c, upd);
    case _ =>
  }

  /** A worker's super-step is its gated step, and leads back to the supervisor. */
  lemma WorkerAttempts(cfg: SupervisorConfig, c: Cursor, resume: Value, sessions: map<string, Payload>)
    requires LegalWorkers(cfg.workers) && c.node in Ids(cfg.workers)
    ensures c.node in Star(cfg).nodes
    ensures Attempt(Star(cfg), c, resume, sessions) ==
      match WorkerStep(cfg, WorkerNamed(cfg, c.node), NodeInput(c.state, resume, sessions))
      case Asked(v, regs) => Paused(Rec(c.node, c.state, c.step, true, v, Collect(regs)))
      case Failed => Crashed(c.state, NodeFailed)
      case Returned(upd, regs) =>
        Advanced(Rec(SUPERVISOR, Merged(c.state, upd, Star(cfg).reducers), c.step + 1, false, Nil, Collect(regs)))
  {
    assert Star(cfg).nodes[c.node] == WorkerNode(cfg, WorkerNamed(cfg, c.node));
  }

  lemma CountedAfterWork(cfg: SupervisorConfig, c: Cursor, upd: Update)
    requires LegalWorkers(cfg.workers) && Counted(cfg, c) && c.node in Ids(cfg.workers)
    requires "step" !in upd && "max_steps" !in upd
    ensures Counted(cfg, Cursor(SUPERVISOR, Merged(c.state, upd, Star(cfg).reducers), c.step + 1))
  {
    PlainMerge(cfg, c.state, upd, "step");
    PlainMerge(cfg, c.state, upd, "max_steps");
  }

  lemma AttemptKeepsCount(cfg: SupervisorConfig, c: Cursor, resume: Value, sessions: map<string, Payload>)
    requires LegalWorkers(cfg.workers) && Counted(cfg, c) && !AtEnd(c.node)
    ensures c.node in Star(cfg).nodes
    ensures var o := Attempt(Star(cfg), c, resume, sessions);
      match o
      case Advanced(rec) => Counted(cfg, Cursor(rec.node, rec.state, rec.step))
      case Paused(rec) => Counted(cfg, Cursor(rec.node, rec.state, rec.step))
      case Crashed(_, e) => e == NodeFailed
  {
    if c.node == SUPERVISOR {
      SupervisorKeepsCount(cfg, c, resume, sessions);
    } else {
      WorkerKeepsCount(cfg, c, resume, sessions);
    }
  }

  /** The bound on super-steps, and the invariant that proves it. */
  function Bound(cfg: SupervisorConfig): int {
    2 * Hops(cfg) + 1
  }

  function CountedIn(cfg: SupervisorConfig): Invariant {
    c => Counted(cfg, c)
  }

  lemma SupervisorIsGuided(cfg: SupervisorConfig)
    requires LegalWorkers(cfg.workers)
    ensures Guides(Star(cfg), CountedIn(cfg), Bound(cfg))
  {
    forall c: Cursor, resume: Value, sessions: map<string, Payload> | CountedIn(cfg)(c) && !AtEnd(c.node)
      ensures Guided(Star(cfg), CountedIn(cfg), Bound(cfg), c, resume, sessions)
    {
      AttemptKeepsCount(cfg, c, resume, sessions);
    }
  }

  /** Over every history of pauses, crashes and resumes, the hop counter in the state gives
      the engine's step counter exactly, and a thread never holds more than
      2 * MaxSteps + 1 super-steps. */
  lemma SupervisorHistoriesAreCounted(cfg: SupervisorConfig, origin: State, recs: seq<Rec>, cmds: seq<Command>)
    requires LegalWorkers(cfg.workers) && Origin(cfg, origin) && Lawful(Star(cfg), origin, recs, cmds) && AllBare(cmds)
    ensures Counted(cfg, Tip(Star(cfg), origin, recs))
    ensures |Erase(recs)| == Tip(Star(cfg), origin, recs).step <= 2 * Hops(cfg) + 1 < StepCap(cfg)
  {
    SupervisorIsGuided(cfg);
    assert CountedIn(cfg)(Cursor(Star(cfg).entry, origin, 0));
    HistoriesAreGuided(Star(cfg), CountedIn(cfg), Bound(cfg), origin, recs, cmds);
    SuperStepsAreBounded(Star(cfg), CountedIn(cfg), Bound(cfg), origin, recs, cmds);
  }

  /** No supervisor run ever trips its step cap or meets an unknown node or route; and left
      alone it stops by itself: finished, waiting for approval, or with a failed node. */
  lemma SupervisorRunsStop(cfg: SupervisorConfig, fits: bool, sessions: map<string, Payload>, c: Cursor, resume: Value,
                           parent: string, env: seq<Tick>)
    requires LegalWorkers(cfg.workers) && Counted(cfg, c)
    ensures var stop := RunLoop(Star(cfg), StepCap(cfg), fits, sessions, c, resume, parent, env).stop;
      !OutOfBounds(stop) && (fits && Undisturbed(env) && |env| >= 2 * Hops(cfg) + 1 - c.step ==> Natural(stop))
  {
    SupervisorIsGuided(cfg);
    GuidedRunsStop(Star(cfg), CountedIn(cfg), Bound(cfg), StepCap(cfg), fits, sessions, c, resume, parent, env);
  }

  /** A supervisor that always finds work for an ungated worker that always succeeds. */
  ghost predicate Busy(cfg: SupervisorConfig) {
    && (forall s :: cfg.decide(s).Some? && NormalizeNext(cfg.decide(s).value.next) in Ids(cfg.workers))
    && (forall k, i, task :: 0 <= k < |cfg.workers| ==>
         cfg.workers[k].id !in cfg.approvals && cfg.workers[k].body(i, task).Reported?)
  }

  lemma BusyAdvances(cfg: SupervisorConfig, c: Cursor, resume: Value, sessions: map<string, Payload>)
    requires LegalWorkers(cfg.workers) && Busy(cfg) && Counted(cfg, c) && !AtEnd(c.node)
    ensures var o := Attempt(Star(cfg), c, resume, sessions);
      o.Advanced? && Counted(cfg, Cursor(o.rec.node, o.rec.state, o.rec.step))
        && (AtEnd(o.rec.node) ==> o.rec.step == Bound(cfg))
  {
    AttemptKeepsCount(cfg, c, resume, sessions);
    if c.node == SUPERVISOR {
      BusyHop(cfg, c, resume, sessions);
    } else {
      WorkerAttempts(cfg, c, resume, sessions);
      var input := NodeInput(c.state, resume, sessions);
      assert cfg.workers[WorkerIndex(cfg.workers, c.node)].body(input, TaskOf(c.state)).Reported?;
    }
  }

  lemma BusyHop(cfg: SupervisorConfig, c: Cursor, resume: Value, sessions: map<string, Payload>)
    requires LegalWorkers(cfg.workers) && Busy(cfg) && Counted(cfg, c) && c.node == SUPERVISOR
    ensures SUPERVISOR in Star(cfg).nodes
    ensures var o := Attempt(Star(cfg), c, resume, sessions);
      o.Advanced? && o.rec.step == c.step + 1 && (AtEnd(o.rec.node) ==> StateInt(c.state, "step") == Hops(cfg))
  {
    var _ := cfg.decide(c.state);
    SupervisorHops(cfg, c.state);
    var o := SupervisorStep(cfg, c.state);
    SupervisorRoutes(cfg, c, resume, sessions, o.upd, o.regs);
  }

  /** The bound is tight: a busy supervisor uses exactly 2 * MaxSteps + 1 super-steps. */
  lemma BusyRunsReachTheBound(cfg: SupervisorConfig, parent: string, env: seq<Tick>)
    requires LegalWorkers(cfg.workers) && Busy(cfg) && Undisturbed(env) && |env| >= 2 * Hops(cfg) + 1
    ensures var out := RunLoop(Star(cfg), StepCap(cfg), true, map[], Cursor(Star(cfg).entry, InitialState(cfg), 0),
                               Nil, parent, env);
      out.stop == Completed && |out.recs| == 2 * Hops(cfg) + 1
  {
    var g, inv := Star(cfg), CountedIn(cfg);
    forall c: Cursor, resume: Value, sessions: map<string, Payload> | inv(c) && !AtEnd(c.node)
      ensures Pushes(g, inv, Bound(cfg), c, resume, sessions)
    {
      BusyAdvances(cfg, c, resume, sessions);
    }
    RunsReachTheBound(g, inv, Bound(cfg), StepCap(cfg), map[], Cursor(g.entry, InitialState(cfg), 0), Nil, parent, env);
  }

  /** Where a body asks a question of its own, it has not saved a session first. */
  ghost predicate BodiesAskQuietly(cfg: SupervisorConfig) {
    forall k, i, task :: 0 <= k < |cfg.workers| && cfg.workers[k].body(i, task).Wants? ==>
      SavedBy(Collect(cfg.workers[k].body(i, task).regs)) == map[]
  }

  lemma StarAsksQuietly(cfg: SupervisorConfig)
    requires BodiesAskQuietly(cfg) && LegalWorkers(cfg.workers)
    ensures AsksQuietly(Star(cfg))
  {
    var g := Star(cfg);
    forall n, i: NodeInput | n in g.nodes && g.nodes[n](i).Asked?
      ensures SavedBy(Collect(g.nodes[n](i).regs)) == map[] {
      if n in Ids(cfg.workers) {
        var k := WorkerIndex(cfg.workers, n);
        assert g.nodes[n] == WorkerNode(cfg, cfg.workers[k]);
        var _ := cfg.workers[k].body(i, TaskOf(i.state));
      } else {
        assert g.nodes[n] == SupervisorNode(cfg);
        assert false by { SupervisorHops(cfg, i.state); }
      }
    }
  }

  /** Approval pauses are transparent: a gate pauses with no artifact, so the history of a
      supervised thread, erased of its pauses, is the one in which every gate had its answer
      at once, and every agent remembers the same. */
  lemma ApprovalsAreTransparent(cfg: SupervisorConfig, origin: State, recs: seq<Rec>, cmds: seq<Command>)
    requires BodiesAskQuietly(cfg) && LegalWorkers(cfg.workers) && Lawful(Star(cfg), origin, recs, cmds)
    ensures Play(Star(cfg), origin, WithoutSaves(Visits(recs, cmds))).recs == Erase(recs)
    ensures SessionsOf(Erase(recs)) == SessionsOf(recs)
  {
    StarAsksQuietly(cfg);
    QuietGraphsAreTransparent(Star(cfg), origin, recs, cmds);
  }
}
