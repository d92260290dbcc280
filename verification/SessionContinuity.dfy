/** Continuity of agent conversations: a supervisor worker that persists its session always
    starts from the messages registered at its last committed visit, whatever ran in between
    and however often the process was cut off (agentspec/spec.go, orchestrator/supervisor.go). */
module SessionContinuity {
  import opened Common
  import opened Values
  import opened Artifacts
  import opened EngineSpec
  import opened History
  import opened Transparency
  import opened RunFacts
  import opened Supervisor
  import opened AgentSessions

  // ------------------------------------------------------------- committed visits

  /** Record i was committed by a super-step of this node. */
  ghost predicate IsVisit(g: Graph, origin: State, recs: seq<Rec>, cmds: seq<Command>, node: string, i: nat)
    requires i < |recs| == |cmds|
  {
    !recs[i].interrupt && Enter(g, origin, recs[..i], cmds[i]).node == node
  }

  /** The last of the first n records that is a visit of this node. */
  ghost function LastVisit(g: Graph, origin: State, recs: seq<Rec>, cmds: seq<Command>, node: string,
                           n: nat): (j: Option<nat>)
    requires n <= |recs| == |cmds|
    ensures j.Some? ==> j.value < n && IsVisit(g, origin, recs, cmds, node, j.value)
    ensures forall k: nat :: (if j.Some? then j.value < k else true) && k < n ==>
            !IsVisit(g, origin, recs, cmds, node, k)
  {
    if n == 0 then None
    else if IsVisit(g, origin, recs, cmds, node, n - 1) then Some(n - 1)
    else LastVisit(g, origin, recs, cmds, node, n - 1)
  }

  /** Exactly the committed super-steps of this node save the agent's session. */
  ghost predicate SavesAt(g: Graph, node: string, agent: string, c: Cursor, resume: Value,
                          sessions: map<string, Payload>)
    requires c.node in g.nodes
  {
    match Attempt(g, c, resume, sessions)
    case Advanced(rec) => agent in SavedBy(rec.arts) <==> c.node == node
    case Paused(rec) => agent !in SavedBy(rec.arts)
    case Crashed(_, _) => true
  }

  ghost predicate Remembers(g: Graph, node: string, agent: string) {
    forall c: Cursor, resume: Value, sessions: map<string, Payload> :: c.node in g.nodes ==>
      SavesAt(g, node, agent, c, resume, sessions)
  }

  ghost function SavedAt(recs: seq<Rec>, j: Option<nat>, agent: string): Option<Payload>
    requires j.Some? ==> j.value < |recs|
  {
    if j.Some? then StoredIn(SavedBy(recs[j.value].arts), agent) else None
  }

  /** What the agent remembers at any point of a history is what its last committed visit
      saved. */
  lemma {:induction false} SessionIsLastVisits(g: Graph, origin: State, recs: seq<Rec>, cmds: seq<Command>,
                                               node: string, agent: string, n: nat)
    requires Lawful(g, origin, recs, cmds) && Remembers(g, node, agent) && n <= |recs|
    ensures StoredIn(SessionsOf(recs[..n]), agent) == SavedAt(recs, LastVisit(g, origin, recs, cmds, node, n), agent)
  {
    if n > 0 {
      SessionIsLastVisits(g, origin, recs, cmds, node, agent, n - 1);
      assert recs[..n] == recs[..n - 1] + [recs[n - 1]];
      SessionsSnoc(recs[..n - 1], recs[n - 1]);
      RecordSaves(g, origin, recs, cmds, node, agent, n - 1);
    }
  }

  /** A record saves the agent's session exactly if it is a committed visit. */
  lemma RecordSaves(g: Graph, origin: State, recs: seq<Rec>, cmds: seq<Command>, node: string, agent: string, m: nat)
    requires Lawful(g, origin, recs, cmds) && Remembers(g, node, agent) && m < |recs|
    ensures agent in SavedBy(recs[m].arts) <==> IsVisit(g, origin, recs, cmds, node, m)
  {
    assert LawfulAt(g, origin, recs, cmds, m);
    var c, value := Enter(g, origin, recs[..m], cmds[m]), Delivered(recs[..m], cmds[m]);
    AttemptPossible(g, c, value, SessionsOf(recs[..m]));
    assert SavesAt(g, node, agent, c, value, SessionsOf(recs[..m]));
  }

  // ------------------------------------------------------------- what a run shows its nodes

  /** The k-th node a run starts sees the state, the place and the sessions of everything
      committed before it, whether or not it is committed itself. */
  ghost predicate SeesHistory(recs: seq<Rec>, out: RunOut, k: nat)
    requires k < |out.execs|
  {
    && k <= |out.recs| && out.execs[k].input.sessions == SessionsOf(recs + out.recs[..k])
    && (k > 0 ==> out.execs[k].node == out.recs[k - 1].node && out.execs[k].input.state == out.recs[k - 1].state)
  }

  lemma SeesHistoryLater(recs: seq<Rec>, rec: Rec, one: RunOut, rest: RunOut, k: nat)
    requires one.recs == [rec] && |one.execs| == 1 && k < |rest.execs|
    requires SeesHistory(recs + [rec], rest, k)
             && (k == 0 ==> rest.execs[0].node == rec.node && rest.execs[0].input.state == rec.state)
    ensures SeesHistory(recs, Join(one, rest), k + 1)
  {
    var all := Join(one, rest).recs;
    assert all[..k + 1] == [rec] + rest.recs[..k];
    assert recs + ([rec] + rest.recs[..k]) == (recs + [rec]) + rest.recs[..k];
  }

  lemma {:induction false} NodesSeeTheirHistory(g: Graph, cap: int, recs: seq<Rec>, c: Cursor, resume: Value,
                                                parent: string, env: seq<Tick>, k: nat)
    requires k < |RunLoop(g, cap, true, SessionsOf(recs), c, resume, parent, env).execs|
    ensures SeesHistory(recs, RunLoop(g, cap, true, SessionsOf(recs), c, resume, parent, env), k)
    decreases |env|
  {
    var sessions := SessionsOf(recs);
    var out := RunLoop(g, cap, true, sessions, c, resume, parent, env);
    OnlyFirstNodeIsResumed(g, cap, true, sessions, c, resume, parent, env);
    if k == 0 {
      assert recs + out.recs[..0] == recs;
    } else {
      Unrolled(g, cap, true, sessions, c, resume, parent, env);
      var it := Iterate(g, true, sessions, c, resume, parent, env[0]);
      var rec := it.next.value;
      SessionsSnoc(recs, rec);
      var c' := Cursor(rec.node, rec.state, rec.step);
      var rest := RunLoop(g, cap, true, SessionsOf(recs + [rec]), c', Nil, env[0].id, env[1..]);
      OnlyFirstNodeIsResumed(g, cap, true, SessionsOf(recs + [rec]), c', Nil, env[0].id, env[1..]);
      NodesSeeTheirHistory(g, cap, recs + [rec], c', Nil, env[0].id, env[1..], k - 1);
      SeesHistoryLater(recs, rec, it.out, rest, k - 1);
    }
  }

  // ------------------------------------------------------------- persistent workers

  /** No artifact here saves a session for this agent. */
  predicate LeavesAlone(regs: seq<Artifact>, agent: string) {
    forall k :: 0 <= k < |regs| ==> !(IsSession(regs[k]) && regs[k].key == agent)
  }

  lemma {:induction false} CollectedAreRegistered(regs: seq<Artifact>, agent: string)
    requires LeavesAlone(regs, agent)
    ensures LeavesAlone(Collect(regs), agent)
  {
    if regs != [] {
      CollectedAreRegistered(regs[..|regs| - 1], agent);
    }
  }

  lemma {:induction false} LeftAloneUnsaved(arts: seq<Artifact>, agent: string)
    requires LeavesAlone(arts, agent)
    ensures agent !in SavedBy(arts)
  {
    if arts != [] {
      LeftAloneUnsaved(arts[..|arts| - 1], agent);
    }
  }

  lemma OneSession(agent: string, messages: Payload)
    requires agent != ""
    ensures var a := Artifact(AGENT_SESSION, agent, messages);
      Collect([a]) == [a] && SavedBy([a]) == map[agent := messages]
  {
    var a := Artifact(AGENT_SESSION, agent, messages);
    assert [a][..0] == [] && RegisterError([], a).None?;
  }

  function RegsOf(result: WorkResult): seq<Artifact> {
    match result
    case Reported(_, regs) => regs
    case Wants(_, regs) => regs
    case Broke => []
  }

  /** Worker k is a persistent agent, and no other worker saves a session under its id. */
  ghost predicate PersistentWorker(cfg: SupervisorConfig, k: nat, spec: AgentSpec, prompt: Prompt) {
    && LegalWorkers(cfg.workers) && k < |cfg.workers|
    && cfg.workers[k] == Worker(spec.id, SessionBody(spec, prompt)) && spec.persist
    && forall other, i, task :: 0 <= other < |cfg.workers| && other != k ==>
      LeavesAlone(RegsOf(cfg.workers[other].body(i, task)), spec.id)
  }

  lemma OnlyWorkerNamed(cfg: SupervisorConfig, k: nat, id: string)
    requires LegalWorkers(cfg.workers) && k < |cfg.workers| && cfg.workers[k].id == id
    ensures id in Ids(cfg.workers) && WorkerNamed(cfg, id) == cfg.workers[k]
  {
    var j := WorkerIndex(cfg.workers, id);
    assert j == k;
  }

  /** The persistent worker's own step: it pauses without artifacts, or reports with exactly
      the conversation that its loop left. */
  lemma PersistentStep(cfg: SupervisorConfig, k: nat, spec: AgentSpec, prompt: Prompt, c: Cursor, resume: Value,
                       sessions: map<string, Payload>)
    requires PersistentWorker(cfg, k, spec, prompt) && c.node == spec.id
    ensures c.node in Star(cfg).nodes
    ensures var o := Attempt(Star(cfg), c, resume, sessions);
      var outcome := spec.loop(VisitStart(spec, sessions), prompt(c.state, TaskOf(c.state)));
      && (o.Paused? ==> o.rec.arts == [])
      && (o.Advanced? ==> outcome.Ran? && o.rec.arts == [Artifact(AGENT_SESSION, spec.id, outcome.messages)])
  {
    OnlyWorkerNamed(cfg, k, spec.id);
    var input := NodeInput(c.state, resume, sessions);
    WorkerAttempts(cfg, c, resume, sessions);
    assert cfg.workers[k].body(input, TaskOf(c.state)) == SessionBody(spec, prompt)(input, TaskOf(c.state));
    var outcome := spec.loop(VisitStart(spec, sessions), prompt(c.state, TaskOf(c.state)));
    OneSession(spec.id, outcome.messages);
  }

  /** Every other node's step leaves the session alone. */
  lemma OthersStep(cfg: SupervisorConfig, k: nat, spec: AgentSpec, prompt: Prompt, c: Cursor, resume: Value,
                   sessions: map<string, Payload>)
    requires PersistentWorker(cfg, k, spec, prompt) && c.node != spec.id && c.node in Star(cfg).nodes
    ensures var o := Attempt(Star(cfg), c, resume, sessions); !o.Crashed? ==> spec.id !in SavedBy(o.rec.arts)
  {
    var input := NodeInput(c.state, resume, sessions);
    var regs := [];
    if c.node in Ids(cfg.workers) {
      var j := WorkerIndex(cfg.workers, c.node);
      assert Star(cfg).nodes[c.node] == WorkerNode(cfg, cfg.workers[j]);
      var result := cfg.workers[j].body(input, TaskOf(c.state));
      assert LeavesAlone(RegsOf(result), spec.id);
      regs := RegsOf(result);
    } else {
      assert Star(cfg).nodes[c.node] == SupervisorNode(cfg);
    }
    CollectedAreRegistered(regs, spec.id);
    LeftAloneUnsaved(Collect(regs), spec.id);
    LeftAloneUnsaved([], spec.id);
  }

  lemma PersistentWorkerRemembers(cfg: SupervisorConfig, k: nat, spec: AgentSpec, prompt: Prompt)
    requires PersistentWorker(cfg, k, spec, prompt)
    ensures Remembers(Star(cfg), spec.id, spec.id)
  {
    var g := Star(cfg);
    forall c: Cursor, resume: Value, sessions: map<string, Payload> | c.node in g.nodes
      ensures SavesAt(g, spec.id, spec.id, c, resume, sessions)
    {
      AttemptPossible(g, c, resume, sessions);
      if c.node == spec.id {
        PersistentStep(cfg, k, spec, prompt, c, resume, sessions);
        OneSession(spec.id, spec.loop(VisitStart(spec, sessions), prompt(c.state, TaskOf(c.state))).messages);
      } else {
        OthersStep(cfg, k, spec, prompt, c, resume, sessions);
      }
    }
  }

  /** The messages of the last committed visit among the first n records, or the opening of a
      new conversation if there was none. */
  ghost function Remembered(cfg: SupervisorConfig, spec: AgentSpec, origin: State, recs: seq<Rec>, cmds: seq<Command>,
                            n: nat): Payload
    requires n <= |recs| == |cmds|
  {
    var saved := SavedAt(recs, LastVisit(Star(cfg), origin, recs, cmds, spec.id, n), spec.id);
    if saved.Some? then saved.value else Opening(spec)
  }

  /** Session continuity of committed visits: each one ran the agent's loop on exactly the
      messages of the visit before it, and registered what the loop left. */
  lemma ConversationContinues(cfg: SupervisorConfig, k: nat, spec: AgentSpec, prompt: Prompt, origin: State,
                              recs: seq<Rec>, cmds: seq<Command>, i: nat)
    requires PersistentWorker(cfg, k, spec, prompt) && Lawful(Star(cfg), origin, recs, cmds)
    requires i < |recs| && IsVisit(Star(cfg), origin, recs, cmds, spec.id, i)
    ensures var s := Enter(Star(cfg), origin, recs[..i], cmds[i]).state;
      var outcome := spec.loop(Remembered(cfg, spec, origin, recs, cmds, i), prompt(s, TaskOf(s)));
      outcome.Ran? && recs[i].arts == [Artifact(AGENT_SESSION, spec.id, outcome.messages)]
  {
    var g := Star(cfg);
    PersistentWorkerRemembers(cfg, k, spec, prompt);
    SessionIsLastVisits(g, origin, recs, cmds, spec.id, spec.id, i);
    assert LawfulAt(g, origin, recs, cmds, i);
    var c, value := Enter(g, origin, recs[..i], cmds[i]), Delivered(recs[..i], cmds[i]);
    AttemptPossible(g, c, value, SessionsOf(recs[..i]));
    PersistentStep(cfg, k, spec, prompt, c, value, SessionsOf(recs[..i]));
  }

  /** A visit at this point of a history starts from what is remembered there. */
  lemma VisitRemembers(cfg: SupervisorConfig, k: nat, spec: AgentSpec, prompt: Prompt, origin: State, recs: seq<Rec>,
                       cmds: seq<Command>, n: nat, sessions: map<string, Payload>)
    requires PersistentWorker(cfg, k, spec, prompt) && Lawful(Star(cfg), origin, recs, cmds) && n <= |recs|
    requires sessions == SessionsOf(recs[..n])
    ensures VisitStart(spec, sessions) == Remembered(cfg, spec, origin, recs, cmds, n)
  {
    PersistentWorkerRemembers(cfg, k, spec, prompt);
    SessionIsLastVisits(Star(cfg), origin, recs, cmds, spec.id, spec.id, n);
  }

  lemma ExecutionRemembers(cfg: SupervisorConfig, k: nat, spec: AgentSpec, prompt: Prompt, origin: State,
                           recs: seq<Rec>, out: RunOut, all: seq<Rec>, cmds: seq<Command>, x: nat)
    requires PersistentWorker(cfg, k, spec, prompt) && Lawful(Star(cfg), origin, all, cmds)
    requires all == recs + out.recs && x < |out.execs| && SeesHistory(recs, out, x)
    ensures VisitStart(spec, out.execs[x].input.sessions) == Remembered(cfg, spec, origin, all, cmds, |recs| + x)
  {
    SeenIsPrefix(recs, out, x, all, |recs| + x);
    VisitRemembers(cfg, k, spec, prompt, origin, all, cmds, |recs| + x, out.execs[x].input.sessions);
  }

  lemma SeenIsPrefix(recs: seq<Rec>, out: RunOut, x: nat, all: seq<Rec>, n: nat)
    requires x < |out.execs| && SeesHistory(recs, out, x) && all == recs + out.recs && n == |recs| + x
    ensures n <= |all| && out.execs[x].input.sessions == SessionsOf(all[..n])
  {
    assert all[..n] == recs + out.recs[..x];
  }

  /** Session continuity of every visit, committed or not: in any run that continues a
      lawful history, a visit starts from the messages of the last visit committed before
      it, counting those of the same run. */
  lemma VisitsStartFromTheLastCommitted(cfg: SupervisorConfig, k: nat, spec: AgentSpec, prompt: Prompt, origin: State,
                                        recs: seq<Rec>, cmds: seq<Command>,
                                        cmd: Command, cap: int, parent: string, env: seq<Tick>, x: nat)
    requires PersistentWorker(cfg, k, spec, prompt) && Lawful(Star(cfg), origin, recs, cmds)
    requires (recs == [] ==> cmd == PLAIN) && (TipInterrupted(recs) ==> cmd.resume != Nil)
    requires x < |RunLoop(Star(cfg), cap, true, SessionsOf(recs), Enter(Star(cfg), origin, recs, cmd),
                          Delivered(recs, cmd), parent, env).execs|
    ensures var out := RunLoop(Star(cfg), cap, true, SessionsOf(recs), Enter(Star(cfg), origin, recs, cmd),
                               Delivered(recs, cmd), parent, env);
      SeesHistory(recs, out, x) && VisitStart(spec, out.execs[x].input.sessions) ==
        Remembered(cfg, spec, origin, recs + out.recs, cmds + CommandsFor(cmd, |out.recs|), |recs| + x)
  {
    var g := Star(cfg);
    var c, value := Enter(g, origin, recs, cmd), Delivered(recs, cmd);
    RunsAreLawful(g, origin, recs, cmds, cmd, cap, parent, env);
    NodesSeeTheirHistory(g, cap, recs, c, value, parent, env, x);
    var out := RunLoop(g, cap, true, SessionsOf(recs), c, value, parent, env);
    ExecutionRemembers(cfg, k, spec, prompt, origin, recs, out, recs + out.recs,
                       cmds + CommandsFor(cmd, |out.recs|), x);
  }
}
