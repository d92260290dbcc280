/** The approval gate (orchestrator/supervisor.go, graph/interrupt.go): what a human is shown
    before a gated worker runs, and that each run of its body has its own approving answer. */
module Approval {
  import opened Common
  import opened Values
  import opened Artifacts
  import opened EngineSpec
  import opened History
  import opened RunFacts
  import opened Bounded
  import opened Invocation
  import opened Supervisor
  import opened Text

  predicate Gated(cfg: SupervisorConfig, node: string) {
    node in cfg.approvals && node in Ids(cfg.workers)
  }

  /** This execution of a worker got past its gate, if it has one. */
  predicate RunsBody(cfg: SupervisorConfig, e: Exec) {
    e.node in Ids(cfg.workers) && (e.node in cfg.approvals ==> ApprovalTruthy(e.input.resume))
  }

  /** The gate itself: unanswered it asks with exactly the approval payload, a refusal fails
      the node, and an approving answer hands over to the body. */
  lemma GateStep(cfg: SupervisorConfig, w: Worker, i: NodeInput)
    requires w.id in cfg.approvals
    ensures var o := WorkerStep(cfg, w, i);
      && (i.resume == Nil ==> o == Asked(ApprovalPayload(w.id, i.state), []))
      && (i.resume != Nil && !ApprovalTruthy(i.resume) ==> o == Failed)
      && (ApprovalTruthy(i.resume) ==>
            match w.body(i, TaskOf(i.state))
            case Wants(value, regs) => o == Asked(value, regs)
            case Reported(_, regs) => o.Returned? && o.regs == regs
            case Broke => o == Failed)
  {
  }

  /** So a pause of a gated worker shows its approval payload, unless the worker had just
      been approved: then it is the body's own question, and the next answer counts for both. */
  lemma GatePauses(cfg: SupervisorConfig, c: Cursor, resume: Value, sessions: map<string, Payload>)
    requires Gated(cfg, c.node)
    ensures c.node in Star(cfg).nodes
    ensures var o, input := Attempt(Star(cfg), c, resume, sessions), NodeInput(c.state, resume, sessions);
      o.Paused? ==>
        if resume == Nil then o.rec.value == ApprovalPayload(c.node, c.state)
        else
          var asked := WorkerNamed(cfg, c.node).body(input, TaskOf(c.state));
          ApprovalTruthy(resume) && asked.Wants? && o.rec.value == asked.value
  {
    assert Star(cfg).nodes[c.node] == WorkerNode(cfg, WorkerNamed(cfg, c.node));
    GateStep(cfg, WorkerNamed(cfg, c.node), NodeInput(c.state, resume, sessions));
  }

  /** This pause, if it is a gated worker's, shows its approval payload. */
  predicate Shown(cfg: SupervisorConfig, rec: Rec) {
    Gated(cfg, rec.node) && rec.interrupt ==> rec.value == ApprovalPayload(rec.node, rec.state)
  }

  /** Exactly when a pause at a gated worker shows the worker, the task, the reason and the
      goal that its own state holds: in every history, whatever the commands, if and only if
      the node was not handed a value, or its body, run on what it was handed, asks for the
      very same. */
  lemma PauseShowsItsApprovalIff(cfg: SupervisorConfig, origin: State, recs: seq<Rec>, cmds: seq<Command>, i: nat)
    requires Lawful(Star(cfg), origin, recs, cmds) && i < |recs| && recs[i].interrupt && Gated(cfg, recs[i].node)
    ensures var rec, value := recs[i], Delivered(recs[..i], cmds[i]);
      && (Shown(cfg, rec) <==>
            value == Nil
            || BodyAsks(cfg, rec.node, rec.state, value, SessionsOf(recs[..i]), ApprovalPayload(rec.node, rec.state)))
      && (value != Nil ==> ApprovalTruthy(value) && AskedByBody(cfg, rec, value, SessionsOf(recs[..i])))
  {
    assert LawfulAt(Star(cfg), origin, recs, cmds, i);
    var c := Enter(Star(cfg), origin, recs[..i], cmds[i]);
    AttemptPossible(Star(cfg), c, Delivered(recs[..i], cmds[i]), SessionsOf(recs[..i]));
    GatePauses(cfg, c, Delivered(recs[..i], cmds[i]), SessionsOf(recs[..i]));
  }

  /** The worker's own body asks this question when it runs on this state, value and memory. */
  predicate BodyAsks(cfg: SupervisorConfig, node: string, state: State, value: Value, sessions: map<string, Payload>,
                     question: Value)
    requires Gated(cfg, node)
  {
    var asked := WorkerNamed(cfg, node).body(NodeInput(state, value, sessions), TaskOf(state));
    asked.Wants? && asked.value == question
  }

  /** The question of this pause came out of the worker's own body. */
  predicate AskedByBody(cfg: SupervisorConfig, rec: Rec, value: Value, sessions: map<string, Payload>)
    requires Gated(cfg, rec.node)
  {
    BodyAsks(cfg, rec.node, rec.state, value, sessions, rec.value)
  }

  /** The bodies behind gates never ask for an interrupt themselves. */
  ghost predicate QuietGates(cfg: SupervisorConfig) {
    forall k, i, task :: 0 <= k < |cfg.workers| && cfg.workers[k].id in cfg.approvals ==>
      !cfg.workers[k].body(i, task).Wants?
  }

  /** So with quiet gates every pause shows its approval. */
  lemma QuietGatesAlwaysShow(cfg: SupervisorConfig, origin: State, recs: seq<Rec>, cmds: seq<Command>, i: nat)
    requires QuietGates(cfg) && Lawful(Star(cfg), origin, recs, cmds) && i < |recs|
    ensures Shown(cfg, recs[i])
  {
    if Gated(cfg, recs[i].node) && recs[i].interrupt {
      PauseShowsItsApprovalIff(cfg, origin, recs, cmds, i);
      var input := NodeInput(recs[i].state, Delivered(recs[..i], cmds[i]), SessionsOf(recs[..i]));
      assert !cfg.workers[WorkerIndex(cfg.workers, recs[i].node)].body(input, TaskOf(recs[i].state)).Wants?;
    }
  }

  /** This execution ran the worker, in the state, whose pause the call has answered with an
      approval. */
  predicate AnsweredAt(recs: seq<Rec>, answer: Value, e: Exec) {
    TipInterrupted(recs) && e.input.resume == answer && ApprovalTruthy(answer) &&
    var tip := recs[|recs| - 1];
    tip.node == e.node && tip.state == e.input.state
  }

  /** And what the human was shown at that pause is this worker, with the task, reason and
      goal of this state. */
  predicate ApprovedAt(cfg: SupervisorConfig, recs: seq<Rec>, answer: Value, e: Exec) {
    AnsweredAt(recs, answer, e) && recs[|recs| - 1].value == ApprovalPayload(e.node, e.input.state)
  }

  /** Among these executions at most the first is a gated body, and its pause was answered. */
  ghost predicate BodiesAnswered(cfg: SupervisorConfig, recs: seq<Rec>, answer: Value, execs: seq<Exec>) {
    forall k :: 0 <= k < |execs| && Gated(cfg, execs[k].node) && RunsBody(cfg, execs[k]) ==>
      k == 0 && AnsweredAt(recs, answer, execs[0])
  }

  /** Among these executions at most the first is a gated body, and it was approved. */
  ghost predicate BodiesApproved(cfg: SupervisorConfig, recs: seq<Rec>, answer: Value, execs: seq<Exec>) {
    forall k :: 0 <= k < |execs| && Gated(cfg, execs[k].node) && RunsBody(cfg, execs[k]) ==>
      k == 0 && ApprovedAt(cfg, recs, answer, execs[0])
  }

  /** A resumed run executes at most one gated body, as its first node, and only by an
      approving answer to the pause of that very worker in that very state. */
  lemma ResumedBodiesAreAnswered(cfg: SupervisorConfig, d: Durable, cap: int, cmd: Command, expected: string,
                                 env: seq<Tick>)
    requires Bare(cmd)
    ensures BodiesAnswered(cfg, d.recs, cmd.resume, Resumed(Star(cfg), d, cap, cmd, expected, env).execs)
  {
    var g := Star(cfg);
    if EntranceOf(g, d, cmd, expected).Entered? {
      BareEnters(g, map[], d.recs, cmd);
      OnlyFirstNodeIsResumed(g, cap, true, SessionsOf(d.recs), Tip(g, map[], d.recs), Delivered(d.recs, cmd), d.latest,
                             env);
    }
  }

  /** The pause at the tip, if there is one, shows its approval. */
  predicate TipShown(cfg: SupervisorConfig, recs: seq<Rec>) {
    TipInterrupted(recs) ==> Shown(cfg, recs[|recs| - 1])
  }

  /** Approval integrity of one call: a resumed run executes at most one gated body, as its
      first node, and exactly the one whose approval payload the answered pause has shown;
      all it takes is that the pause at the tip did show it. */
  lemma ResumedBodiesAreApproved(cfg: SupervisorConfig, d: Durable, cap: int, cmd: Command, expected: string,
                                 env: seq<Tick>)
    requires Bare(cmd) && TipShown(cfg, d.recs)
    ensures BodiesApproved(cfg, d.recs, cmd.resume, Resumed(Star(cfg), d, cap, cmd, expected, env).execs)
  {
    ResumedBodiesAreAnswered(cfg, d, cap, cmd, expected, env);
  }

  ghost predicate NoGatedBodies(cfg: SupervisorConfig, execs: seq<Exec>) {
    forall k :: 0 <= k < |execs| ==> !(Gated(cfg, execs[k].node) && RunsBody(cfg, execs[k]))
  }

  /** A fresh invocation executes no gated body at all. */
  lemma InvokedBodiesAreUngated(cfg: SupervisorConfig, d: Durable, input: State, cap: int, env: seq<Tick>)
    ensures NoGatedBodies(cfg, Invoked(Star(cfg), d, input, cap, env).execs)
  {
    var g := Star(cfg);
    var out := RunLoop(g, cap, d.latest == "", map[], Cursor(g.entry, input, 0), Nil, "", env);
    OnlyFirstNodeIsResumed(g, cap, d.latest == "", map[], Cursor(g.entry, input, 0), Nil, "", env);
    UnresumedAreUngated(cfg, out.execs, Exec(g.entry, NodeInput(input, Nil, map[])));
  }

  lemma UnresumedAreUngated(cfg: SupervisorConfig, execs: seq<Exec>, first: Exec)
    requires ResumedOnce(execs, first) && first.input.resume == Nil
    ensures NoGatedBodies(cfg, execs)
  {
  }

  /** A state with this decision's handoff reads back its task and reason. */
  lemma HandoffReadsBack(s: State, after: State, worker: string, d: Decision)
    requires GetString(after, "goal") == GetString(s, "goal")
    requires Lookup(after, "handoff") ==
      Dict(map["from" := Str(SUPERVISOR), "to" := Str(worker), "reason" := Str(d.reason),
               "task" := Str(TaskGiven(d, s))])
    ensures TaskOf(after) == TaskGiven(d, s)
    ensures ApprovalPayload(worker, after) ==
      Dict(map["worker" := Str(worker), "task" := Str(TaskGiven(d, s)), "reason" := Str(d.reason),
               "goal" := Str(GetString(s, "goal"))])
  {
    var h := Lookup(after, "handoff").fields;
    assert Lookup(h, "task") == Str(TaskGiven(d, s)) && Lookup(h, "reason") == Str(d.reason);
  }

  lemma HandoffIsWritten(cfg: SupervisorConfig, s: State, d: Decision)
    requires cfg.decide(s) == Some(d) && StateInt(s, "max_steps") > StateInt(s, "step")
             && NormalizeNext(d.next) in Ids(cfg.workers)
    requires StateInt(s, "max_steps") > 0
    ensures var o := SupervisorStep(cfg, s);
      && o.Returned? && "goal" !in o.upd && "handoff" in o.upd && "next" in o.upd
         && o.upd["next"] == Str(NormalizeNext(d.next))
      && o.upd["handoff"] ==
           Dict(map["from" := Str(SUPERVISOR), "to" := Str(NormalizeNext(d.next)), "reason" := Str(d.reason),
                    "task" := Str(TaskGiven(d, s))])
  {
  }

  /** What the supervisor decided is what the worker is given and what the human is shown:
      a hop leads to the named worker in a state whose task is the decided one, or the goal
      if none was, and whose approval payload carries the decided reason. */
  lemma DecisionReachesWorkerAndHuman(cfg: SupervisorConfig, c: Cursor, resume: Value, sessions: map<string, Payload>,
                                      d: Decision)
    requires LegalWorkers(cfg.workers) && Counted(cfg, c) && c.node == SUPERVISOR && cfg.decide(c.state) == Some(d)
    requires StateInt(c.state, "step") < Hops(cfg) && NormalizeNext(d.next) in Ids(cfg.workers)
    ensures var o, worker := Attempt(Star(cfg), c, resume, sessions), NormalizeNext(d.next);
      && o.Advanced? && o.rec.node == worker && TaskOf(o.rec.state) == TaskGiven(d, c.state)
      && ApprovalPayload(worker, o.rec.state) ==
           Dict(map["worker" := Str(worker), "task" := Str(TaskGiven(d, c.state)), "reason" := Str(d.reason),
                    "goal" := Str(GetString(c.state, "goal"))])
  {
    HandoffIsWritten(cfg, c.state, d);
    SupervisorHops(cfg, c.state);
    var o := SupervisorStep(cfg, c.state);
    var after := Merged(c.state, o.upd, Star(cfg).reducers);
    SupervisorRoutes(cfg, c, resume, sessions, o.upd, o.regs);
    PlainMerge(cfg, c.state, o.upd, "handoff");
    PlainMerge(cfg, c.state, o.upd, "goal");
    HandoffReadsBack(c.state, after, NormalizeNext(d.next), d);
  }

  /** The answer RunSupervisor resumes with. */
  const APPROVE := Command(Bool(true), map[], "")

  lemma FirstNodeIsExecuted(g: Graph, cap: int, fits: bool, sessions: map<string, Payload>, c: Cursor, resume: Value,
                            parent: string, env: seq<Tick>)
    requires !AtEnd(c.node) && c.node in g.nodes && env != [] && env[0].top.Clear?
    ensures var execs := RunLoop(g, cap, fits, sessions, c, resume, parent, env).execs;
      execs != [] && execs[0] == Exec(c.node, NodeInput(c.state, resume, sessions))
  {
    Unrolled(g, cap, fits, sessions, c, resume, parent, env);
    AttemptPossible(g, c, resume, sessions);
    ConcludedCounts(c, Attempt(g, c, resume, sessions), fits, parent, env[0],
                    [Exec(c.node, NodeInput(c.state, resume, sessions))]);
  }

  /** Exactly when an approving resume keeps approval integrity, to be seen before it is
      made: at a gated pause, if and only if that pause shows its approval payload. */
  lemma ApprovedIffShown(cfg: SupervisorConfig, d: Durable, cap: int, env: seq<Tick>)
    requires LegalWorkers(cfg.workers) && env != [] && env[0].top.Clear?
    requires TipInterrupted(d.recs) && Gated(cfg, d.recs[|d.recs| - 1].node)
    ensures BodiesApproved(cfg, d.recs, Bool(true), Resumed(Star(cfg), d, cap, APPROVE, "", env).execs) <==>
      Shown(cfg, d.recs[|d.recs| - 1])
  {
    var g, c := Star(cfg), Tip(Star(cfg), map[], d.recs);
    if Shown(cfg, d.recs[|d.recs| - 1]) {
      ResumedBodiesAreApproved(cfg, d, cap, APPROVE, "", env);
    } else {
      BareEnters(g, map[], d.recs, APPROVE);
      FirstNodeIsExecuted(g, cap, true, SessionsOf(d.recs), c, Bool(true), d.latest, env);
    }
  }

  /** And for commands that redirect the run or edit its state: an approving command that
      enters a gated worker keeps approval integrity if and only if that is the worker which
      paused, its state is left as it was shown, and what was shown is its payload. */
  lemma RedirectedApprovedIff(cfg: SupervisorConfig, d: Durable, cap: int, cmd: Command, env: seq<Tick>)
    requires LegalWorkers(cfg.workers) && env != [] && env[0].top.Clear?
    requires TipInterrupted(d.recs) && ApprovalTruthy(cmd.resume)
    requires Gated(cfg, Enter(Star(cfg), map[], d.recs, cmd).node)
    ensures var tip, execs := d.recs[|d.recs| - 1], Resumed(Star(cfg), d, cap, cmd, "", env).execs;
      var reentered := cmd.goto == "" || cmd.goto == tip.node;
      var untouched := Merged(tip.state, cmd.update, Star(cfg).reducers) == tip.state;
      && (BodiesAnswered(cfg, d.recs, cmd.resume, execs) <==> reentered && untouched)
      && (BodiesApproved(cfg, d.recs, cmd.resume, execs) <==>
            reentered && untouched && tip.value == ApprovalPayload(tip.node, tip.state))
  {
    var g, c := Star(cfg), Enter(Star(cfg), map[], d.recs, cmd);
    FirstNodeIsExecuted(g, cap, true, SessionsOf(d.recs), c, cmd.resume, d.latest, env);
    OnlyFirstNodeIsResumed(g, cap, true, SessionsOf(d.recs), c, cmd.resume, d.latest, env);
  }

  /** Records j and later are pauses of one worker in one state, the first of them shown as
      an approval and each later one reached by an approving answer. */
  ghost predicate ApprovedSince(cfg: SupervisorConfig, recs: seq<Rec>, cmds: seq<Command>, j: nat)
    requires j < |recs| == |cmds|
  {
    && recs[j].value == ApprovalPayload(recs[j].node, recs[j].state)
    && (forall i :: j <= i < |recs| ==>
         recs[i].interrupt && recs[i].node == recs[j].node && recs[i].state == recs[j].state)
    && (forall i :: j < i < |recs| ==> ApprovalTruthy(cmds[i].resume))
  }

  lemma ApprovedOnceMore(cfg: SupervisorConfig, recs: seq<Rec>, cmds: seq<Command>, j: nat)
    requires j + 1 < |recs| == |cmds| && ApprovedSince(cfg, recs[..|recs| - 1], cmds[..|recs| - 1], j)
    requires SamePause(recs, |recs| - 1) && ApprovalTruthy(cmds[|recs| - 1].resume)
    ensures ApprovedSince(cfg, recs, cmds, j)
  {
  }

  /** This record and the one before are pauses of one node in one state. */
  predicate SamePause(recs: seq<Rec>, i: nat)
    requires i < |recs|
  {
    0 < i && recs[i].interrupt && recs[i - 1].interrupt &&
    recs[i].node == recs[i - 1].node && recs[i].state == recs[i - 1].state
  }

  /** A gated worker that pauses when a pause was answered pauses where it did, and the
      answer was an approval. */
  lemma AskedAgain(cfg: SupervisorConfig, origin: State, recs: seq<Rec>, cmds: seq<Command>)
    requires Lawful(Star(cfg), origin, recs, cmds) && AllBare(cmds)
    requires TipInterrupted(recs) && Gated(cfg, recs[|recs| - 1].node)
    requires TipInterrupted(recs[..|recs| - 1]) && cmds[|recs| - 1].resume != Nil
    ensures SamePause(recs, |recs| - 1) && ApprovalTruthy(cmds[|recs| - 1].resume)
  {
    var n := |recs| - 1;
    PauseShowsItsApprovalIff(cfg, origin, recs, cmds, n);
    assert LawfulAt(Star(cfg), origin, recs, cmds, n);
    BareEnters(Star(cfg), origin, recs[..n], cmds[n]);
    AttemptPossible(Star(cfg), Tip(Star(cfg), origin, recs[..n]), cmds[n].resume, SessionsOf(recs[..n]));
  }

  /** What holds without any condition: wherever a gated worker stands paused, its approval
      payload for that very state was shown, and approved before every further question. So
      no gated body ever runs that was not shown and approved at least once. */
  lemma {:induction false} EveryGateWasShown(cfg: SupervisorConfig, origin: State, recs: seq<Rec>, cmds: seq<Command>)
      returns (j: nat)
    requires Lawful(Star(cfg), origin, recs, cmds) && AllBare(cmds)
    requires TipInterrupted(recs) && Gated(cfg, recs[|recs| - 1].node)
    ensures j < |recs| && ApprovedSince(cfg, recs, cmds, j)
    decreases |recs|
  {
    var n := |recs| - 1;
    j := n;
    if TipInterrupted(recs[..n]) && cmds[n].resume != Nil {
      AskedAgain(cfg, origin, recs, cmds);
      LawfulPrefix(Star(cfg), origin, recs, cmds, n);
      j := EveryGateWasShown(cfg, origin, recs[..n], cmds[..n]);
      ApprovedOnceMore(cfg, recs, cmds, j);
    } else {
      PauseShowsItsApprovalIff(cfg, origin, recs, cmds, n);
    }
  }

  /** The failing case: if an approved body asks a question of its own, the answer to that
      question lets the body run again although no approval payload was shown for it. */
  lemma BodyQuestionIsTakenForApproval(cfg: SupervisorConfig, origin: State, recs: seq<Rec>, cmds: seq<Command>,
                                       q: Value, regs: seq<Artifact>, cap: int, latest: string, env: seq<Tick>)
    requires LegalWorkers(cfg.workers) && Lawful(Star(cfg), origin, recs, cmds)
    requires TipInterrupted(recs) && Gated(cfg, recs[|recs| - 1].node) && env != [] && env[0].top.Clear?
    requires var tip := recs[|recs| - 1];
      && q != ApprovalPayload(tip.node, tip.state)
      && WorkerNamed(cfg, tip.node).body(NodeInput(tip.state, Bool(true), SessionsOf(recs)),
                                         TaskOf(tip.state)) == Wants(q, regs)
    ensures var tip := recs[|recs| - 1];
      var recs' := recs + [Rec(tip.node, tip.state, tip.step, true, q, Collect(regs))];
      && Lawful(Star(cfg), origin, recs', cmds + [APPROVE])
      && !BodiesApproved(cfg, recs', Bool(true),
                         Resumed(Star(cfg), Durable(recs', latest), cap, APPROVE, "", env).execs)
  {
    var g, tip := Star(cfg), recs[|recs| - 1];
    var asked := Rec(tip.node, tip.state, tip.step, true, q, Collect(regs));
    BareEnters(g, origin, recs, APPROVE);
    GateStep(cfg, WorkerNamed(cfg, tip.node), NodeInput(tip.state, Bool(true), SessionsOf(recs)));
    assert g.nodes[tip.node] == WorkerNode(cfg, WorkerNamed(cfg, tip.node));
    LawfulSnoc(g, origin, recs, cmds, APPROVE, asked);
    ApprovedIffShown(cfg, Durable(recs + [asked], latest), cap, env);
  }

  // A supervisor that always delegates to one gated worker, whose body always asks.
  const ASKING_BODY: Body := (i: NodeInput, task: string) => Wants(Nil, [])
  const ASKING := SupervisorConfig("", [Worker("w", ASKING_BODY)], 1, {"w"}, (s: State) => Some(Decision("w", "", "")))

  lemma AskingIsLegal()
    ensures LegalWorkers(ASKING.workers) && Ids(ASKING.workers) == {"w"} && NormalizeNext("w") == "w"
  {
    assert ASKING.workers[0].id == "w";
    TrimSpaceTrims("w");
    assert |ToLower("w")| == 1;
  }

  /** A fresh thread gets to the gate by one hop. */
  lemma AskingHops() returns (hop: Rec)
    ensures Lawful(Star(ASKING), InitialState(ASKING), [hop], [PLAIN])
    ensures hop.node == "w" && !hop.interrupt
  {
    var g, origin := Star(ASKING), InitialState(ASKING);
    AskingIsLegal();
    var start := Cursor(SUPERVISOR, origin, 0);
    DecisionReachesWorkerAndHuman(ASKING, start, Nil, map[], Decision("w", "", ""));
    hop := Attempt(g, start, Nil, map[]).rec;
    AttemptPossible(g, start, Nil, map[]);
    MergedNothing(origin, g.reducers);
    LawfulSnoc(g, origin, [], [], PLAIN, hop);
    assert [] + [hop] == [hop] && [] + [PLAIN] == [PLAIN];
  }

  /** And there it pauses. */
  lemma AskingPauses() returns (recs: seq<Rec>, cmds: seq<Command>)
    ensures Lawful(Star(ASKING), InitialState(ASKING), recs, cmds) && AllBare(cmds)
    ensures TipInterrupted(recs) && recs[|recs| - 1].node == "w"
  {
    var g, origin := Star(ASKING), InitialState(ASKING);
    AskingIsLegal();
    var hop := AskingHops();
    var c := Tip(g, origin, [hop]);
    BareEnters(g, origin, [hop], PLAIN);
    GateStep(ASKING, WorkerNamed(ASKING, "w"), NodeInput(c.state, Nil, SessionsOf([hop])));
    assert g.nodes["w"] == WorkerNode(ASKING, WorkerNamed(ASKING, "w"));
    var pause := Attempt(g, c, Nil, SessionsOf([hop])).rec;
    LawfulSnoc(g, origin, [hop], [PLAIN], PLAIN, pause);
    recs, cmds := [hop] + [pause], [PLAIN] + [PLAIN];
  }

  /** And the failing case is reachable: in this configuration one approval and the body's
      question later, the next yes is taken for an approval that nobody was shown. */
  lemma AskingWorkerBreaksApproval(cap: int, latest: string, env: seq<Tick>)
      returns (recs: seq<Rec>, cmds: seq<Command>)
    requires env != [] && env[0].top.Clear?
    ensures Lawful(Star(ASKING), InitialState(ASKING), recs, cmds) && AllBare(cmds)
    ensures !BodiesApproved(ASKING, recs, Bool(true),
                            Resumed(Star(ASKING), Durable(recs, latest), cap, APPROVE, "", env).execs)
  {
    AskingIsLegal();
    var before, earlier := AskingPauses();
    var pause := before[|before| - 1];
    assert WorkerNamed(ASKING, "w").body == ASKING_BODY;
    BodyQuestionIsTakenForApproval(ASKING, InitialState(ASKING), before, earlier, Nil, [], cap, latest, env);
    recs, cmds := before + [Rec(pause.node, pause.state, pause.step, true, Nil, Collect([]))], earlier + [APPROVE];
  }
}
