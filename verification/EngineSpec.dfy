/** The engine loop as a function (graph/builder.go): one super-step, and a whole run
    against a schedule of what the environment does to it. */
module EngineSpec {
  import opened Common
  import opened Values
  import opened Artifacts

  const START := "__start__"
  const END := "__end__"

  /** What a node can observe. A nil `resume` means that no resume value was delivered;
      `sessions` is what the store returns for each agent at the parent checkpoint. */
  datatype NodeInput = NodeInput(state: State, resume: Value, sessions: map<string, Payload>)

  /** A node returns an update, asks for an interrupt, or fails; `regs` are the artifacts
      it tried to register on the way. */
  datatype NodeOutcome =
    | Returned(upd: Update, regs: seq<Artifact>)
    | Asked(value: Value, regs: seq<Artifact>)
    | Failed

  type NodeFn = NodeInput -> NodeOutcome
  type RouteFn = State -> string

  datatype Graph = Graph(
    nodes: map<string, NodeFn>, edges: map<string, string>,
    routes: map<string, RouteFn>, reducers: map<string, Reducer>, entry: string)

  predicate AtEnd(node: string) {
    node == "" || node == END
  }

  function Next(g: Graph, from: string, s: State): Result<string> {
    if from in g.routes then
      var to := g.routes[from](s);
      if to == "" then Ok(END)
      else if to != END && to !in g.nodes then Err(UnknownRoute)
      else Ok(to)
    else if from !in g.edges then Ok(END)
    else Ok(g.edges[from])
  }

  /** Where a run stands: next node, state and step counter. */
  datatype Cursor = Cursor(node: string, state: State, step: int)

  /** A durable record: a snapshot without its ids, and its artifacts. */
  datatype Rec = Rec(node: string, state: State, step: int, interrupt: bool, value: Value, arts: seq<Artifact>)

  datatype Outcome =
    | Advanced(rec: Rec)
    | Paused(rec: Rec)
    | Crashed(state: State, error: Error)

  /** One super-step: run the node, merge, route. */
  function Attempt(g: Graph, c: Cursor, resume: Value, sessions: map<string, Payload>): Outcome
    requires c.node in g.nodes
  {
    match g.nodes[c.node](NodeInput(c.state, resume, sessions))
    case Asked(v, regs) => Paused(Rec(c.node, c.state, c.step, true, v, Collect(regs)))
    case Failed => Crashed(c.state, NodeFailed)
    case Returned(upd, regs) =>
      var s := Merged(c.state, upd, g.reducers);
      match Next(g, c.node, s)
      case Err(e) => Crashed(s, e)
      case Ok(to) => Advanced(Rec(to, s, c.step + 1, false, Nil, Collect(regs)))
  }

  /** What every attempt from this cursor looks like from outside. */
  predicate Possible(c: Cursor, o: Outcome) {
    match o
    case Advanced(rec) => rec.step == c.step + 1 && !rec.interrupt && rec.value == Nil
    case Paused(rec) => rec.node == c.node && rec.state == c.state && rec.step == c.step && rec.interrupt
    case Crashed(s, e) => e == UnknownRoute || (e == NodeFailed && s == c.state)
  }

  lemma AttemptPossible(g: Graph, c: Cursor, resume: Value, sessions: map<string, Payload>)
    requires c.node in g.nodes
    ensures Possible(c, Attempt(g, c, resume, sessions))
  {
  }

  /** The sessions saved by one step; a later artifact for the same agent wins. */
  function SavedBy(arts: seq<Artifact>): map<string, Payload> {
    if arts == [] then map[]
    else
      var a := arts[|arts| - 1];
      var before := SavedBy(arts[..|arts| - 1]);
      if IsSession(a) then before[a.key := a.payload] else before
  }

  /** The sessions visible at the tip of a sequence of records. */
  function SessionsOf(recs: seq<Rec>): map<string, Payload> {
    if recs == [] then map[] else SessionsOf(recs[..|recs| - 1]) + SavedBy(recs[|recs| - 1].arts)
  }

  // ---------------------------------------------------------------- a whole run

  /** The state of the run's context at one check. */
  datatype Signal = Clear | Cancel | LeaseGone

  /** What the environment does during one loop iteration: the context at the top, after
      the node and at the commit, whether the node fails for a reason outside its input
      (a network error, a cancelled call), and the random ids drawn. */
  datatype Tick = Tick(top: Signal, after: Signal, persist: Signal, faulty: bool, id: string, draw: nat -> string)

  datatype Stop =
    | Completed
    | Stopped(error: Error)
    | InterruptedAt(node: string, value: Value)

  datatype EventKind =
    | RunStart | RunResume | NodeStart | NodeEnd | NodeError | Route
    | Checkpoint | CheckpointError | Interrupt | RunEnd

  datatype Event = Event(kind: EventKind, node: string, step: int, id: string)

  /** A node execution, committed or not. */
  datatype Exec = Exec(node: string, input: NodeInput)

  /** What a run leaves behind: records and ids committed, events emitted, node executions
      started, the returned state and why it stopped. */
  datatype RunOut = RunOut(
    recs: seq<Rec>, ids: seq<string>, events: seq<Event>, execs: seq<Exec>, state: State, stop: Stop)

  function Join(before: RunOut, rest: RunOut): RunOut {
    RunOut(before.recs + rest.recs, before.ids + rest.ids, before.events + rest.events,
           before.execs + rest.execs, rest.state, rest.stop)
  }

  /** How the commit of one iteration fails; `fits` says that the run's parent checkpoint
      is the store's latest. */
  function PersistError(t: Tick, fits: bool): Option<Error> {
    if t.persist.LeaseGone? then Some(LeaseLost)
    else if !fits then Some(CheckpointConflict)
    else None
  }

  /** One loop iteration: what it leaves behind, and the record to continue from if it
      committed a super-step. */
  datatype Iteration = Iteration(out: RunOut, next: Option<Rec>)

  /** The commit that ends an iteration, after these events of this node. */
  function Settle(node: string, rec: Rec, t: Tick, fits: bool, events: seq<Event>, execs: seq<Exec>): Iteration {
    match PersistError(t, fits)
    case Some(e) =>
      Iteration(RunOut([], [], events + [Event(CheckpointError, node, rec.step, t.id)], execs, rec.state, Stopped(e)),
                None)
    case None =>
      var committed := events + [Event(Checkpoint, node, rec.step, t.id)];
      if rec.interrupt then
        Iteration(RunOut([rec], [t.id], committed + [Event(Interrupt, node, rec.step, t.id)], execs, rec.state,
                         InterruptedAt(node, rec.value)), None)
      else
        Iteration(RunOut([rec], [t.id], committed, execs, rec.state, Completed), Some(rec))
  }

  /** The rest of an iteration whose node came out like this. */
  function Concluded(c: Cursor, o: Outcome, fits: bool, parent: string, t: Tick, execs: seq<Exec>): Iteration {
    var start := Event(NodeStart, c.node, c.step, parent);
    if t.after.LeaseGone? then Iteration(RunOut([], [], [start], execs, c.state, Stopped(LeaseLost)), None)
    else if t.faulty then
      Iteration(RunOut([], [], [start, Event(NodeError, c.node, c.step, "")], execs, c.state, Stopped(NodeFailed)),
                None)
    else
      match o
      case Paused(rec) => Settle(c.node, rec, t, fits, [start], execs)
      case Crashed(s, e) =>
        var ev := if e == NodeFailed then Event(NodeError, c.node, c.step, "")
          else Event(NodeEnd, c.node, c.step, parent);
        Iteration(RunOut([], [], [start, ev], execs, s, Stopped(e)), None)
      case Advanced(rec) =>
        var end, route := Event(NodeEnd, c.node, c.step, parent), Event(Route, c.node, rec.step, parent);
        Settle(c.node, rec, t, fits, [start, end, route], execs)
  }

  /** The checks at the top of an iteration: lost lease, cancelled context, unknown node. */
  function Gate(g: Graph, node: string, t: Tick): Option<Error> {
    if t.top.LeaseGone? then Some(LeaseLost)
    else if t.top.Cancel? then Some(Cancelled)
    else if node !in g.nodes then Some(UnknownNode)
    else None
  }

  function Iterate(g: Graph, fits: bool, sessions: map<string, Payload>, c: Cursor, resume: Value, parent: string,
                   t: Tick): Iteration {
    match Gate(g, c.node, t)
    case Some(e) => Iteration(RunOut([], [], [], [], c.state, Stopped(e)), None)
    case None => Concluded(c, Attempt(g, c, resume, sessions), fits, parent, t,
                           [Exec(c.node, NodeInput(c.state, resume, sessions))])
  }

  predicate Capped(cap: int, step: int) {
    cap > 0 && step >= cap
  }

  /** The run loop. The schedule is finite because a context is live only for finitely many
      iterations; when it is used up the context counts as cancelled. */
  function RunLoop(g: Graph, cap: int, fits: bool, sessions: map<string, Payload>, c: Cursor, resume: Value,
                   parent: string, env: seq<Tick>): RunOut
    decreases |env|
  {
    if AtEnd(c.node) then RunOut([], [], [], [], c.state, Completed)
    else if env == [] then RunOut([], [], [], [], c.state, Stopped(Cancelled))
    else
      var it := Iterate(g, fits, sessions, c, resume, parent, env[0]);
      match it.next
      case None => it.out
      case Some(rec) =>
        if Capped(cap, rec.step) then it.out.(stop := Stopped(MaxStepsExceeded))
        else
          // the resume value is one-shot: it is cleared once the node has returned
          Join(it.out, RunLoop(g, cap, fits, sessions + SavedBy(rec.arts), Cursor(rec.node, rec.state, rec.step), Nil,
                               env[0].id, env[1..]))
  }

  predicate Undisturbed(env: seq<Tick>) {
    forall k :: 0 <= k < |env| ==>
      env[k].top == Clear && !env[k].after.LeaseGone? && !env[k].faulty && !env[k].persist.LeaseGone?
  }
}
