/** RunSupervisor (orchestrator/supervisor.go): invoke or resume the star graph, and keep
    asking the human and resuming while gated workers pause it. */
module SupervisorRun {
  import opened Common
  import opened Values
  import opened Artifacts
  import ThreadSpec
  import opened ThreadInvariant
  import opened DurableMemory
  import opened EngineSpec
  import opened History
  import opened HistoryFacts
  import opened RunFacts
  import opened EngineRun
  import opened Invocation
  import opened Bounded
  import opened Supervisor
  import opened Approval

  /** A reply of the approval hook. */
  datatype Answer = Yes | No | HookFails

  /** What the hook is asked: node and value are in its argument, the state is the one the
      interrupted call returned. */
  datatype Question = Question(node: string, value: Value, state: State)

  function QuestionAt(rec: Rec): Question {
    Question(rec.node, rec.value, rec.state)
  }

  /** One run, and the position of the approved question it was resumed for, if any. */
  datatype Turn = Turn(approved: Option<nat>, run: RunOut)

  datatype Verdict =
    | Finished(message: string)
    | Waiting(question: Question)
    | Denied
    | Broken(error: Error)

  datatype SupervisorResult = SupervisorResult(state: State, verdict: Verdict)

  // ------------------------------------------------------- what one run leaves behind

  /** A supervisor thread after a run: a lawful history under bare commands whose tip agrees
      with how the run stopped. */
  ghost predicate Standing(cfg: SupervisorConfig, origin: State, recs: seq<Rec>, cmds: seq<Command>, out: RunOut) {
    && Ours(cfg, origin, recs, cmds) && !OutOfBounds(out.stop)
    && (out.stop.InterruptedAt? ==> TipInterrupted(recs) && AskedOf(out) == QuestionAt(recs[|recs| - 1]))
    && (out.stop.Completed? ==>
         AtEnd(Tip(Star(cfg), origin, recs).node) && out.state == Tip(Star(cfg), origin, recs).state)
  }

  /** The question an interrupted run leaves open. */
  function AskedOf(out: RunOut): Question
    requires out.stop.InterruptedAt?
  {
    Question(out.stop.node, out.stop.value, out.state)
  }

  ghost predicate Ours(cfg: SupervisorConfig, origin: State, recs: seq<Rec>, cmds: seq<Command>) {
    Lawful(Star(cfg), origin, recs, cmds) && AllBare(cmds) && Origin(cfg, origin)
  }

  /** A resumed run agrees with the tip it leaves. */
  lemma ResumedEnds(g: Graph, origin: State, d: Durable, cap: int, cmd: Command, env: seq<Tick>)
    requires d.recs != [] && Bare(cmd)
    ensures EndsAtTip(Tip(g, origin, d.recs), Resumed(g, d, cap, cmd, "", env))
  {
    BareEnters(g, map[], d.recs, cmd);
    RunsEndAtTheirTip(g, cap, true, SessionsOf(d.recs), Tip(g, origin, d.recs), Delivered(d.recs, cmd), d.latest, env);
  }

  lemma TipAfter(g: Graph, origin: State, recs: seq<Rec>, out: RunOut)
    requires EndsAtTip(Tip(g, origin, recs), out)
    ensures var recs' := recs + out.recs;
      && (out.stop.InterruptedAt? ==> TipInterrupted(recs') && AskedOf(out) == QuestionAt(recs'[|recs'| - 1]))
      && (out.stop.Completed? ==> AtEnd(Tip(g, origin, recs').node) && out.state == Tip(g, origin, recs').state)
  {
    if out.recs == [] {
      assert recs + out.recs == recs;
    } else {
      assert (recs + out.recs)[|recs + out.recs| - 1] == out.recs[|out.recs| - 1];
    }
  }

  lemma ResumedInBounds(cfg: SupervisorConfig, origin: State, d: Durable, cmds: seq<Command>, cmd: Command,
                        env: seq<Tick>)
    requires LegalWorkers(cfg.workers) && Ours(cfg, origin, d.recs, cmds) && Bare(cmd)
    ensures !OutOfBounds(Resumed(Star(cfg), d, StepCap(cfg), cmd, "", env).stop)
  {
    if d.recs != [] {
      BareEnters(Star(cfg), map[], d.recs, cmd);
      SupervisorHistoriesAreCounted(cfg, origin, d.recs, cmds);
      SupervisorRunsStop(cfg, true, SessionsOf(d.recs), Tip(Star(cfg), origin, d.recs), Delivered(d.recs, cmd),
                         d.latest, env);
    }
  }

  lemma OursAfter(cfg: SupervisorConfig, origin: State, recs: seq<Rec>, cmds: seq<Command>, cmd: Command,
                  added: seq<Rec>)
    requires Ours(cfg, origin, recs, cmds) && Bare(cmd) && MayAppend(Star(cfg), origin, recs, cmds, cmd, added)
    ensures Ours(cfg, origin, recs + added, cmds + CommandsFor(cmd, |added|))
  {
  }

  lemma ResumedStands(cfg: SupervisorConfig, origin: State, d: Durable, cmds: seq<Command>, cmd: Command,
                      env: seq<Tick>)
    requires LegalWorkers(cfg.workers) && Ours(cfg, origin, d.recs, cmds) && Bare(cmd) && d.recs != []
    ensures var out := Resumed(Star(cfg), d, StepCap(cfg), cmd, "", env);
      Standing(cfg, origin, d.recs + out.recs, cmds + CommandsFor(cmd, |out.recs|), out)
  {
    var out := Resumed(Star(cfg), d, StepCap(cfg), cmd, "", env);
    ResumedIsLawful(Star(cfg), origin, d, cmds, StepCap(cfg), cmd, "", env);
    OursAfter(cfg, origin, d.recs, cmds, cmd, out.recs);
    ResumedInBounds(cfg, origin, d, cmds, cmd, env);
    ResumedEnds(Star(cfg), origin, d, StepCap(cfg), cmd, env);
    TipAfter(Star(cfg), origin, d.recs, out);
  }

  lemma InvokedStands(cfg: SupervisorConfig, d: Durable, env: seq<Tick>)
    requires LegalWorkers(cfg.workers)
    ensures var out := Invoked(Star(cfg), d, InitialState(cfg), StepCap(cfg), env);
      && !OutOfBounds(out.stop)
      && (d.latest == "" ==> Standing(cfg, InitialState(cfg), out.recs, CommandsFor(PLAIN, |out.recs|), out))
      && (d.latest != "" ==> out.recs == [] && out.stop.Stopped?)
  {
    var g, origin := Star(cfg), InitialState(cfg);
    var c := Cursor(g.entry, origin, 0);
    var out := Invoked(g, d, origin, StepCap(cfg), env);
    SupervisorRunsStop(cfg, d.latest == "", map[], c, Nil, "", env);
    if d.latest == "" {
      MergedNothing(origin, g.reducers);
      RunsAreLawful(g, origin, [], [], PLAIN, StepCap(cfg), "", env);
      RunsEndAtTheirTip(g, StepCap(cfg), true, map[], c, Nil, "", env);
      assert [] + out.recs == out.recs && [] + CommandsFor(PLAIN, |out.recs|) == CommandsFor(PLAIN, |out.recs|);
    } else {
      MisfitsFail(g, StepCap(cfg), map[], c, Nil, "", env);
    }
  }

  // ------------------------------------------------------------ questions and answers

  /** Every gated body this run executed ran by the answer to its approved question, and is
      the worker in the state that the question was asked in. */
  ghost predicate TurnApproved(cfg: SupervisorConfig, turn: Turn, asked: seq<Question>) {
    forall k :: 0 <= k < |turn.run.execs| && Gated(cfg, turn.run.execs[k].node) && RunsBody(cfg, turn.run.execs[k]) ==>
      var e := turn.run.execs[k];
      && k == 0 && turn.approved.Some? && turn.approved.value < |asked|
      && asked[turn.approved.value].node == e.node && asked[turn.approved.value].state == e.input.state
  }

  lemma ResumedTurnApproved(cfg: SupervisorConfig, d: Durable, cmd: Command, env: seq<Tick>, turn: Turn,
                            asked: seq<Question>)
    requires turn.run == Resumed(Star(cfg), d, StepCap(cfg), cmd, "", env)
    requires TipInterrupted(d.recs) && cmd == APPROVE ==>
      turn.approved.Some? && turn.approved.value < |asked|
      && asked[turn.approved.value] == QuestionAt(d.recs[|d.recs| - 1])
    requires cmd == APPROVE || cmd == PLAIN
    ensures TurnApproved(cfg, turn, asked)
  {
    ResumedBodiesAreAnswered(cfg, d, StepCap(cfg), cmd, "", env);
  }

  lemma InvokedTurnApproved(cfg: SupervisorConfig, d: Durable, env: seq<Tick>, turn: Turn, asked: seq<Question>)
    requires turn.run == Invoked(Star(cfg), d, InitialState(cfg), StepCap(cfg), env)
    ensures TurnApproved(cfg, turn, asked)
  {
    InvokedBodiesAreUngated(cfg, d, InitialState(cfg), StepCap(cfg), env);
  }

  /** A question about a gated worker that shows its approval payload. */
  predicate ShownTo(cfg: SupervisorConfig, q: Question) {
    Gated(cfg, q.node) ==> q.value == ApprovalPayload(q.node, q.state)
  }

  /** The next question about the same worker in the same state. */
  predicate SameVisit(q: Question, next: Question) {
    next.node == q.node && next.state == q.state
  }

  /** A pause that no answer led to shows its approval. */
  lemma UnansweredPauseIsShown(cfg: SupervisorConfig, origin: State, recs: seq<Rec>, cmds: seq<Command>, i: nat)
    requires Lawful(Star(cfg), origin, recs, cmds) && i < |recs| && recs[i].interrupt && cmds[i].resume == Nil
    ensures ShownTo(cfg, QuestionAt(recs[i]))
  {
    assert LawfulAt(Star(cfg), origin, recs, cmds, i);
    if Gated(cfg, recs[i].node) {
      PauseShowsItsApprovalIff(cfg, origin, recs, cmds, i);
    }
  }

  /** The pause a run ends with shows its approval, unless it is the body's own question: then
      the run was an approved one, made nothing but this pause at the worker and in the state
      it answered, and the body asked when it ran on the answer and the memory of that point. */
  lemma NextPauseIsShownOrOwn(cfg: SupervisorConfig, origin: State, recs: seq<Rec>, cmds: seq<Command>, cmd: Command,
                              added: seq<Rec>)
    requires Lawful(Star(cfg), origin, recs + added, cmds + CommandsFor(cmd, |added|)) && |cmds| == |recs| && Bare(cmd)
    requires added != [] && TipInterrupted(recs + added)
    ensures var q := QuestionAt(added[|added| - 1]);
      ShownTo(cfg, q)
      || (|added| == 1 && ApprovalTruthy(cmd.resume) && AskedByBody(cfg, added[0], cmd.resume, SessionsOf(recs))
          && TipInterrupted(recs) && SameVisit(QuestionAt(recs[|recs| - 1]), q))
  {
    var all := recs + added;
    assert all[..|recs|] == recs && all[|all| - 1] == added[|added| - 1];
    LastPauseIsShownOrOwn(cfg, origin, all, cmds + CommandsFor(cmd, |added|), |recs|, cmd);
  }

  /** The same about a history whose records from m on were made under one command. */
  lemma LastPauseIsShownOrOwn(cfg: SupervisorConfig, origin: State, recs: seq<Rec>, cmds: seq<Command>, m: nat,
                              cmd: Command)
    requires Lawful(Star(cfg), origin, recs, cmds) && TipInterrupted(recs) && Bare(cmd)
    requires m < |recs| && cmds[m] == cmd && forall i :: m < i < |recs| ==> cmds[i] == PLAIN
    ensures var n := |recs| - 1;
      || ShownTo(cfg, QuestionAt(recs[n]))
      || (n == m && ApprovalTruthy(cmd.resume) && AskedByBody(cfg, recs[n], cmd.resume, SessionsOf(recs[..n]))
          && TipInterrupted(recs[..m]) && SameVisit(QuestionAt(recs[n - 1]), QuestionAt(recs[n])))
  {
    if m < |recs| - 1 || cmd.resume == Nil {
      UnansweredPauseIsShown(cfg, origin, recs, cmds, |recs| - 1);
    } else {
      AnsweredPauseIsShownOrOwn(cfg, origin, recs, cmds, m);
    }
  }

  /** A pause under any command: it shows its approval, or the command answered the pause
      before it, of the same worker in the same state, and the body asked. */
  lemma AnsweredPauseIsShownOrOwn(cfg: SupervisorConfig, origin: State, recs: seq<Rec>, cmds: seq<Command>, n: nat)
    requires Lawful(Star(cfg), origin, recs, cmds) && n < |recs| && recs[n].interrupt && Bare(cmds[n])
    ensures
      || ShownTo(cfg, QuestionAt(recs[n]))
      || (ApprovalTruthy(cmds[n].resume) && AskedByBody(cfg, recs[n], cmds[n].resume, SessionsOf(recs[..n]))
          && n > 0 && recs[n - 1].interrupt && SameVisit(QuestionAt(recs[n - 1]), QuestionAt(recs[n])))
  {
    var g := Star(cfg);
    assert LawfulAt(g, origin, recs, cmds, n);
    BareEnters(g, origin, recs[..n], cmds[n]);
    AttemptPossible(g, Tip(g, origin, recs[..n]), Delivered(recs[..n], cmds[n]), SessionsOf(recs[..n]));
    if Gated(cfg, recs[n].node) {
      PauseShowsItsApprovalIff(cfg, origin, recs, cmds, n);
    }
  }

  /** This question is one of the thread's pauses and the approved body's own: the body asked
      it when it ran on an approving answer and the memory of that point. */
  ghost predicate Own(cfg: SupervisorConfig, recs: seq<Rec>, q: Question) {
    exists i: nat, value :: i < |recs| && OwnAt(cfg, recs, i, value, q)
  }

  predicate OwnAt(cfg: SupervisorConfig, recs: seq<Rec>, i: nat, value: Value, q: Question)
    requires i < |recs|
  {
    && recs[i].interrupt && QuestionAt(recs[i]) == q && ApprovalTruthy(value)
    && Gated(cfg, q.node) && AskedByBody(cfg, recs[i], value, SessionsOf(recs[..i]))
  }

  lemma OwnStays(cfg: SupervisorConfig, recs: seq<Rec>, recs': seq<Rec>, q: Question)
    requires recs <= recs' && Own(cfg, recs, q)
    ensures Own(cfg, recs', q)
  {
    var i: nat, value :| i < |recs| && OwnAt(cfg, recs, i, value, q);
    assert recs'[..i] == recs[..i];
    assert OwnAt(cfg, recs', i, value, q);
  }

  /** A paused thread shows an approval or the body's own question, whoever drove it. */
  lemma TipIsShownOrOwn(cfg: SupervisorConfig, origin: State, recs: seq<Rec>, cmds: seq<Command>)
    requires Lawful(Star(cfg), origin, recs, cmds) && TipInterrupted(recs)
    ensures ShownTo(cfg, QuestionAt(recs[|recs| - 1])) || Own(cfg, recs, QuestionAt(recs[|recs| - 1]))
  {
    var n := |recs| - 1;
    if Gated(cfg, recs[n].node) {
      PauseShowsItsApprovalIff(cfg, origin, recs, cmds, n);
      assert Shown(cfg, recs[n]) || OwnAt(cfg, recs, n, Delivered(recs[..n], cmds[n]), QuestionAt(recs[n]));
    }
  }

  /** No worker asks questions of its own, gated or not. */
  ghost predicate Quiet(cfg: SupervisorConfig) {
    forall k, i, task :: 0 <= k < |cfg.workers| ==> !cfg.workers[k].body(i, task).Wants?
  }

  /** The hop a paused thread is in. */
  function HopAt(recs: seq<Rec>): int
    requires recs != []
  {
    StateInt(recs[|recs| - 1].state, "step")
  }

  lemma PausesAreAtWorkers(cfg: SupervisorConfig, origin: State, recs: seq<Rec>, cmds: seq<Command>)
    requires LegalWorkers(cfg.workers) && Ours(cfg, origin, recs, cmds) && TipInterrupted(recs)
    ensures var tip := recs[|recs| - 1];
      tip.node in Ids(cfg.workers) && 1 <= HopAt(recs) <= Hops(cfg) && tip.step == 2 * HopAt(recs) - 1
  {
    var g, n := Star(cfg), |recs| - 1;
    SupervisorHistoriesAreCounted(cfg, origin, recs, cmds);
    LawfulPrefix(g, origin, recs, cmds, n);
    SupervisorHistoriesAreCounted(cfg, origin, recs[..n], cmds[..n]);
    assert LawfulAt(g, origin, recs, cmds, n);
    BareEnters(g, origin, recs[..n], cmds[n]);
    var c, value, sessions := Tip(g, origin, recs[..n]), Delivered(recs[..n], cmds[n]), SessionsOf(recs[..n]);
    AttemptPossible(g, c, value, sessions);
    if c.node == SUPERVISOR {
      SupervisorKeepsCount(cfg, c, value, sessions);
    }
  }

  lemma QuietWorkersAdvance(cfg: SupervisorConfig, c: Cursor, resume: Value, sessions: map<string, Payload>)
    requires Quiet(cfg) && c.node in Ids(cfg.workers) && ApprovalTruthy(resume)
    ensures c.node in Star(cfg).nodes && !Attempt(Star(cfg), c, resume, sessions).Paused?
  {
    var w, input := WorkerNamed(cfg, c.node), NodeInput(c.state, resume, sessions);
    assert Star(cfg).nodes[c.node] == WorkerNode(cfg, w);
    assert !cfg.workers[WorkerIndex(cfg.workers, c.node)].body(input, TaskOf(c.state)).Wants?;
    assert !WorkerStep(cfg, w, input).Asked?;
  }

  /** An approved run that pauses again does so in a later hop. */
  lemma NextPauseIsLater(cfg: SupervisorConfig, origin: State, recs: seq<Rec>, cmds: seq<Command>, added: seq<Rec>)
    requires LegalWorkers(cfg.workers) && Quiet(cfg) && TipInterrupted(recs) && Ours(cfg, origin, recs, cmds)
    requires added != [] && TipInterrupted(recs + added)
             && Ours(cfg, origin, recs + added, cmds + CommandsFor(APPROVE, |added|))
    ensures HopAt(recs) < HopAt(recs + added) <= Hops(cfg)
  {
    var g, recs', cmds', n := Star(cfg), recs + added, cmds + CommandsFor(APPROVE, |added|), |recs|;
    PausesAreAtWorkers(cfg, origin, recs, cmds);
    PausesAreAtWorkers(cfg, origin, recs', cmds');
    assert LawfulAt(g, origin, recs', cmds', n);
    assert recs'[..n] == recs && cmds'[n] == APPROVE;
    BareEnters(g, origin, recs, APPROVE);
    var c := Tip(g, origin, recs);
    QuietWorkersAdvance(cfg, c, Bool(true), SessionsOf(recs));
    AttemptPossible(g, c, Bool(true), SessionsOf(recs));
    StepsNeverFall(g, origin, recs', cmds', n, |recs'| - 1);
  }

  // ------------------------------------------------------------------ the driver

  method CheckWorkers(workers: seq<Worker>) returns (ok: bool)
    ensures ok <==> LegalWorkers(workers)
  {
    if workers == [] {
      return false;
    }
    var seen := {};
    for i := 0 to |workers|
      invariant seen == Ids(workers[..i])
      invariant forall j :: 0 <= j < i ==> LegalID(workers[j].id)
      invariant forall j, k :: 0 <= j < k < i ==> workers[j].id != workers[k].id
    {
      var id := workers[i].id;
      if !LegalID(id) {
        return false;
      }
      if id in seen {
        assert exists j :: 0 <= j < i && workers[..i][j].id == id;
        return false;
      }
      assert forall j :: 0 <= j < i ==> workers[..i][j].id in seen;
      seen := seen + {id};
      assert workers[..i + 1] == workers[..i] + [workers[i]];
      IdsOfOneMore(workers[..i], workers[i]);
    }
    return true;
  }

  lemma IdsOfOneMore(workers: seq<Worker>, w: Worker)
    ensures Ids(workers + [w]) == Ids(workers) + {w.id}
  {
    var all := workers + [w];
    assert all[|workers|] == w;
    forall id | id in Ids(workers) ensures id in Ids(all) {
      var k :| 0 <= k < |workers| && workers[k].id == id;
      assert all[k].id == id;
    }
  }

  lemma InterruptedLeaves(cfg: SupervisorConfig, origin: State, recs: seq<Rec>, cmds: seq<Command>, cmd: Command,
                          out: RunOut)
    requires LegalWorkers(cfg.workers) && Ours(cfg, origin, recs, cmds) && recs != []
             && (cmd == PLAIN || cmd == APPROVE)
    requires cmd == APPROVE ==> TipInterrupted(recs)
    requires Standing(cfg, origin, recs + out.recs, cmds + CommandsFor(cmd, |out.recs|), out)
    requires out.stop.InterruptedAt? && out.recs != []
    ensures ShownTo(cfg, AskedOf(out)) || (cmd == APPROVE && SameVisit(QuestionAt(recs[|recs| - 1]), AskedOf(out)))
    ensures Quiet(cfg) && cmd == APPROVE ==> HopAt(recs) < HopAt(recs + out.recs) <= Hops(cfg)
  {
    assert (recs + out.recs)[|recs + out.recs| - 1] == out.recs[|out.recs| - 1];
    NextPauseIsShownOrOwn(cfg, origin, recs, cmds, cmd, out.recs);
    if Quiet(cfg) && cmd == APPROVE {
      NextPauseIsLater(cfg, origin, recs, cmds, out.recs);
    }
  }

  /** What a resumed run leaves behind on a supervisor's thread: where it stands, how its new
      pause came about, and that it moved on if no worker asks on its own. */
  lemma ResumedLeaves(cfg: SupervisorConfig, origin: State, d: Durable, cmds: seq<Command>, cmd: Command,
                      env: seq<Tick>)
    requires LegalWorkers(cfg.workers) && Ours(cfg, origin, d.recs, cmds) && d.recs != []
             && (cmd == PLAIN || cmd == APPROVE)
    requires cmd == APPROVE ==> TipInterrupted(d.recs)
    ensures var out := Resumed(Star(cfg), d, StepCap(cfg), cmd, "", env);
      var recs := d.recs + out.recs;
      && Standing(cfg, origin, recs, cmds + CommandsFor(cmd, |out.recs|), out)
      && (out.stop.InterruptedAt? ==>
            && (ShownTo(cfg, AskedOf(out))
                || (cmd == APPROVE && SameVisit(QuestionAt(d.recs[|d.recs| - 1]), AskedOf(out))))
            && (Quiet(cfg) && cmd == APPROVE ==> HopAt(d.recs) < HopAt(recs) <= Hops(cfg)))
  {
    var out := Resumed(Star(cfg), d, StepCap(cfg), cmd, "", env);
    ResumedStands(cfg, origin, d, cmds, cmd, env);
    if out.stop.InterruptedAt? {
      InterruptedRunMoves(cfg, origin, d, cmd, env);
      InterruptedLeaves(cfg, origin, d.recs, cmds, cmd, out);
    }
  }

  /** One Resume of the supervisor's thread with an approval, of question q. */
  method ResumeTurn(cfg: SupervisorConfig, store: DurableMemory, thread: string, q: nat, asked: seq<Question>,
                    env: seq<Tick>, ghost origin: State, ghost cmds: seq<Command>)
    returns (turn: Turn, rest: seq<Tick>, ghost cmds': seq<Command>)
    requires store.Valid() && thread != "" && FreshEnv(ThreadOf(store.View(), thread), env) && LegalWorkers(cfg.workers)
    requires Ours(cfg, origin, Recs(LogOf(store.logs, thread)), cmds)
    requires var recs := Recs(LogOf(store.logs, thread));
      TipInterrupted(recs) && q < |asked| && asked[q] == QuestionAt(recs[|recs| - 1])
    modifies store, store.threads.Values
    ensures store.Valid() && fresh(store.threads.Values - old(store.threads.Values))
            && FreshEnv(ThreadOf(store.View(), thread), rest)
    ensures turn.approved == Some(q) && TurnApproved(cfg, turn, asked)
    ensures Standing(cfg, origin, Recs(LogOf(store.logs, thread)), cmds', turn.run)
    ensures var recs, recs' := old(Recs(LogOf(store.logs, thread))), Recs(LogOf(store.logs, thread));
      && recs <= recs'
      && (turn.run.stop.InterruptedAt? ==>
            && (ShownTo(cfg, AskedOf(turn.run)) || SameVisit(asked[q], AskedOf(turn.run)))
            && (Quiet(cfg) ==> HopAt(recs) < HopAt(recs') <= Hops(cfg)))
  {
    ghost var d := DurableOf(store.View(), store.logs, thread);
    assert env + [] == env;
    var run;
    run, rest := Resume(Star(cfg), store, thread, StepCap(cfg), APPROVE, "", env);
    assert rest + [] == rest;
    turn := Turn(Some(q), run);
    cmds' := cmds + CommandsFor(APPROVE, |run.recs|);
    ResumedTurnApproved(cfg, d, APPROVE, env, turn, asked);
    ResumedLeaves(cfg, origin, d, cmds, APPROVE, env);
  }

  lemma InterruptedRunMoves(cfg: SupervisorConfig, origin: State, d: Durable, cmd: Command, env: seq<Tick>)
    requires d.recs != [] && Bare(cmd) && Resumed(Star(cfg), d, StepCap(cfg), cmd, "", env).stop.InterruptedAt?
    ensures Resumed(Star(cfg), d, StepCap(cfg), cmd, "", env).recs != []
  {
    ResumedEnds(Star(cfg), origin, d, StepCap(cfg), cmd, env);
  }

  /** The thread holds a supervisor history, or the run just made could not add to it. */
  ghost predicate Stands(ours: bool, cfg: SupervisorConfig, origin: State, recs: seq<Rec>, cmds: seq<Command>,
                         out: RunOut) {
    if ours then Standing(cfg, origin, recs, cmds, out) else out.stop.Stopped? && !OutOfBounds(out.stop)
  }

  /** What a first run leaves: where the thread stands, that it ran no gated body, and that
      its pause shows its approval. */
  lemma InvokedLeaves(cfg: SupervisorConfig, d: Durable, env: seq<Tick>)
    requires LegalWorkers(cfg.workers) && (d.latest == "" <==> d.recs == [])
    ensures var run := Invoked(Star(cfg), d, InitialState(cfg), StepCap(cfg), env);
      && TurnApproved(cfg, Turn(None, run), [])
      && (run.stop.InterruptedAt? ==> ShownTo(cfg, AskedOf(run)))
      && Stands(d.recs == [], cfg, InitialState(cfg), d.recs + run.recs, CommandsFor(PLAIN, |run.recs|), run)
  {
    var run := Invoked(Star(cfg), d, InitialState(cfg), StepCap(cfg), env);
    InvokedStands(cfg, d, env);
    InvokedTurnApproved(cfg, d, env, Turn(None, run), []);
    assert d.recs == [] ==> d.recs + run.recs == run.recs;
    if run.stop.InterruptedAt? {
      UnansweredPauseIsShown(cfg, InitialState(cfg), run.recs, CommandsFor(PLAIN, |run.recs|), |run.recs| - 1);
    }
  }

  lemma FirstRunLeaves(cfg: SupervisorConfig, view: map<string, ThreadSpec.Thread>, logs: map<string, seq<Entry>>,
                       thread: string, env: seq<Tick>)
    requires LegalWorkers(cfg.workers) && ViewInv(view, logs)
    ensures var d := DurableOf(view, logs, thread);
      var run := Invoked(Star(cfg), d, InitialState(cfg), StepCap(cfg), env);
      && TurnApproved(cfg, Turn(None, run), [])
      && (run.stop.InterruptedAt? ==> ShownTo(cfg, AskedOf(run)))
      && Stands(LogOf(logs, thread) == [], cfg, InitialState(cfg), d.recs + run.recs, CommandsFor(PLAIN, |run.recs|),
                run)
  {
    ThreadOfInv(view, logs, thread);
    LatestIsTip(ThreadOf(view, thread), LogOf(logs, thread), thread);
    InvokedLeaves(cfg, DurableOf(view, logs, thread), env);
  }

  /** Starting on a fresh thread; on a thread that already has a history the first commit
      conflicts and nothing is added. */
  method Start(cfg: SupervisorConfig, store: DurableMemory, thread: string, env: seq<Tick>)
    returns (turn: Turn, rest: seq<Tick>, ghost cmds: seq<Command>)
    requires store.Valid() && thread != "" && FreshEnv(ThreadOf(store.View(), thread), env) && LegalWorkers(cfg.workers)
    modifies store, store.threads.Values
    ensures store.Valid() && fresh(store.threads.Values - old(store.threads.Values))
            && FreshEnv(ThreadOf(store.View(), thread), rest)
    ensures turn.approved.None? && TurnApproved(cfg, turn, [])
    ensures turn.run.stop.InterruptedAt? ==> ShownTo(cfg, AskedOf(turn.run))
    ensures Stands(old(LogOf(store.logs, thread)) == [], cfg, InitialState(cfg), Recs(LogOf(store.logs, thread)), cmds,
                   turn.run)
  {
    ghost var d := DurableOf(store.View(), store.logs, thread);
    FirstRunLeaves(cfg, store.View(), store.logs, thread, env);
    assert env + [] == env;
    var run;
    run, rest := Invoke(Star(cfg), store, thread, InitialState(cfg), StepCap(cfg), env);
    assert rest + [] == rest;
    turn, cmds := Turn(None, run), CommandsFor(PLAIN, |run.recs|);
    assert Recs(LogOf(store.logs, thread)) == d.recs + run.recs;
  }

  /** The outcome of picking up a thread that has nothing to run: without a checkpoint it is
      an error, and an interrupt at the tip is the question still open. */
  function Unmoved(latest: Option<ThreadSpec.Snapshot>): RunOut {
    match latest
    case None => Refused(map[], NoCheckpoint)
    case Some(snap) => RunOut([], [], [], [], snap.state, InterruptedAt(snap.node, snap.interruptValue))
  }

  lemma UnmovedStands(cfg: SupervisorConfig, origin: State, t: ThreadSpec.Thread, log: seq<Entry>, thread: string,
                      cmds: seq<Command>)
    requires ThreadInv(t, log, thread) && Ours(cfg, origin, Recs(log), cmds)
    ensures var latest := ThreadSpec.LatestOf(t);
      && (latest.None? <==> Recs(log) == [])
      && (latest.None? || latest.value.interrupt ==> Standing(cfg, origin, Recs(log), cmds, Unmoved(latest)))
  {
    LatestIsTip(t, log, thread);
  }

  /** Looking at an existing thread and resuming it, unless it waits for an answer. */
  method ResumeUnlessPaused(cfg: SupervisorConfig, store: DurableMemory, thread: string, env: seq<Tick>)
    returns (out: RunOut, ran: bool, rest: seq<Tick>)
    requires store.Valid() && thread != "" && FreshEnv(ThreadOf(store.View(), thread), env)
    modifies store, store.threads.Values
    ensures store.Valid() && fresh(store.threads.Values - old(store.threads.Values))
            && FreshEnv(ThreadOf(store.View(), thread), rest)
    ensures var d, latest := old(DurableOf(store.View(), store.logs, thread)),
                             old(ThreadSpec.LatestOf(ThreadOf(store.View(), thread)));
      && ran == (latest.Some? && !latest.value.interrupt)
      && out == (if ran then Resumed(Star(cfg), d, StepCap(cfg), PLAIN, "", env) else Unmoved(latest))
      && DurableOf(store.View(), store.logs, thread) == if ran then After(d, out) else d
  {
    ghost var view := store.View();
    var latest := store.GetLatest(thread);
    assert store.View() == view;
    ran := latest.Some? && !latest.value.interrupt;
    if ran {
      assert env + [] == env;
      out, rest := Resume(Star(cfg), store, thread, StepCap(cfg), PLAIN, "", env);
      assert rest + [] == rest;
    } else {
      out, rest := Unmoved(latest), env;
    }
  }

  /** Picking up an existing thread: it runs at once unless it waits for an approval, in
      which case `out` is the interrupt that is still open and there is no turn. */
  method PickUp(cfg: SupervisorConfig, store: DurableMemory, thread: string, env: seq<Tick>, ghost origin: State,
                ghost cmds: seq<Command>)
    returns (out: RunOut, turns: seq<Turn>, rest: seq<Tick>, ghost cmds': seq<Command>)
    requires store.Valid() && thread != "" && FreshEnv(ThreadOf(store.View(), thread), env) && LegalWorkers(cfg.workers)
    requires Ours(cfg, origin, Recs(LogOf(store.logs, thread)), cmds)
    modifies store, store.threads.Values
    ensures store.Valid() && fresh(store.threads.Values - old(store.threads.Values))
            && FreshEnv(ThreadOf(store.View(), thread), rest)
    ensures turns == [] || (|turns| == 1 && turns[0].approved.None? && TurnApproved(cfg, turns[0], []))
    ensures out.stop.InterruptedAt? ==>
            ShownTo(cfg, AskedOf(out)) || TipInterrupted(old(Recs(LogOf(store.logs, thread))))
    ensures Standing(cfg, origin, Recs(LogOf(store.logs, thread)), cmds', out)
  {
    ghost var d := DurableOf(store.View(), store.logs, thread);
    ThreadOfInv(store.View(), store.logs, thread);
    UnmovedStands(cfg, origin, ThreadOf(store.View(), thread), LogOf(store.logs, thread), thread, cmds);
    var ran;
    out, ran, rest := ResumeUnlessPaused(cfg, store, thread, env);
    turns, cmds' := [], cmds;
    if ran {
      turns, cmds' := [Turn(None, out)], cmds + CommandsFor(PLAIN, |out.recs|);
      ResumedTurnApproved(cfg, d, PLAIN, env, turns[0], []);
      ResumedLeaves(cfg, origin, d, cmds, PLAIN, env);
    }
  }

  /** The first n replies were approvals. */
  ghost predicate YesUpTo(answers: seq<Answer>, n: int) {
    n <= |answers| && forall q :: 0 <= q < n ==> answers[q].Yes?
  }

  /** Approved runs answer earlier questions first, each its own, and each was answered yes. */
  ghost predicate Answered(turns: seq<Turn>, asked: seq<Question>, answers: seq<Answer>) {
    && |asked| <= |answers|
    && (forall j :: 0 <= j < |turns| && turns[j].approved.Some? ==>
          turns[j].approved.value < |asked| && answers[turns[j].approved.value].Yes?)
    && (forall i, j :: 0 <= i < j < |turns| && turns[i].approved.Some? && turns[j].approved.Some? ==>
          turns[i].approved.value < turns[j].approved.value)
  }

  /** Question n shows its approval, or is the approved body's own: then the question before
      it was about the same worker in the same state, or the driver found it open. */
  ghost predicate Fair(cfg: SupervisorConfig, recs: seq<Rec>, asked: seq<Question>, open: bool, n: nat, q: Question)
    requires n <= |asked|
  {
    ShownTo(cfg, q) || (Own(cfg, recs, q) && if n == 0 then open else SameVisit(asked[n - 1], q))
  }

  ghost predicate FairlyAsked(cfg: SupervisorConfig, recs: seq<Rec>, asked: seq<Question>, open: bool) {
    forall n: nat :: n < |asked| ==> Fair(cfg, recs, asked, open, n, asked[n])
  }

  lemma FairStays(cfg: SupervisorConfig, recs: seq<Rec>, recs': seq<Rec>, asked: seq<Question>, open: bool)
    requires recs <= recs' && FairlyAsked(cfg, recs, asked, open)
    ensures FairlyAsked(cfg, recs', asked, open)
  {
    forall n: nat | n < |asked| ensures Fair(cfg, recs', asked, open, n, asked[n]) {
      assert Fair(cfg, recs, asked, open, n, asked[n]);
      if Own(cfg, recs, asked[n]) {
        OwnStays(cfg, recs, recs', asked[n]);
      }
    }
  }

  ghost predicate AllShown(cfg: SupervisorConfig, asked: seq<Question>) {
    forall n :: 0 <= n < |asked| ==> ShownTo(cfg, asked[n])
  }

  ghost predicate AllApproved(cfg: SupervisorConfig, turns: seq<Turn>, asked: seq<Question>) {
    forall j :: 0 <= j < |turns| ==> TurnApproved(cfg, turns[j], asked)
  }

  lemma OneMoreQuestion(cfg: SupervisorConfig, recs: seq<Rec>, turns: seq<Turn>, asked: seq<Question>, open: bool,
                        q: Question)
    requires AllApproved(cfg, turns, asked)
    requires FairlyAsked(cfg, recs, asked, open) && Fair(cfg, recs, asked, open, |asked|, q)
    ensures AllApproved(cfg, turns, asked + [q]) && FairlyAsked(cfg, recs, asked + [q], open)
  {
    forall j | 0 <= j < |turns| ensures TurnApproved(cfg, turns[j], asked + [q]) {
      assert TurnApproved(cfg, turns[j], asked);
    }
    forall n: nat | n < |asked + [q]| ensures Fair(cfg, recs, asked + [q], open, n, (asked + [q])[n]) {
      assert n < |asked| ==> Fair(cfg, recs, asked, open, n, asked[n]);
    }
  }

  /** What the questions asked so far have in common. */
  ghost predicate Kept(cfg: SupervisorConfig, open: bool, recs: seq<Rec>, asked: seq<Question>, turns: seq<Turn>,
                       answers: seq<Answer>) {
    && Answered(turns, asked, answers) && AllApproved(cfg, turns, asked) && FairlyAsked(cfg, recs, asked, open)
    && (QuietGates(cfg) ==> AllShown(cfg, asked)) && (Quiet(cfg) ==> |asked| <= Hops(cfg))
  }

  /** The retained state of the driver between two runs. */
  ghost predicate Driving(cfg: SupervisorConfig, open: bool, recs: seq<Rec>, out: RunOut, asked: seq<Question>,
                          turns: seq<Turn>, answers: seq<Answer>) {
    && Kept(cfg, open, recs, asked, turns, answers) && YesUpTo(answers, |asked|)
    && (out.stop.InterruptedAt? ==>
          Fair(cfg, recs, asked, open, |asked|, AskedOf(out)) && (Quiet(cfg) ==> recs != [] && |asked| < HopAt(recs)))
  }

  /** Asking the open question. */
  lemma AskedToo(cfg: SupervisorConfig, open: bool, recs: seq<Rec>, out: RunOut, asked: seq<Question>,
                 turns: seq<Turn>, answers: seq<Answer>)
    requires Driving(cfg, open, recs, out, asked, turns, answers) && out.stop.InterruptedAt? && |asked| < |answers|
    requires (Quiet(cfg) ==> recs != [] && HopAt(recs) <= Hops(cfg)) && (QuietGates(cfg) ==> ShownTo(cfg, AskedOf(out)))
    ensures Kept(cfg, open, recs, asked + [AskedOf(out)], turns, answers)
  {
    OneMoreQuestion(cfg, recs, turns, asked, open, AskedOf(out));
  }

  /** And resuming after its approval. */
  lemma ResumedToo(cfg: SupervisorConfig, open: bool, recs: seq<Rec>, recs': seq<Rec>, out: RunOut,
                   asked: seq<Question>,
                   turns: seq<Turn>, turn: Turn, answers: seq<Answer>)
    requires Driving(cfg, open, recs, out, asked, turns, answers) && out.stop.InterruptedAt? && |asked| < |answers|
    requires Kept(cfg, open, recs, asked + [AskedOf(out)], turns, answers) && answers[|asked|].Yes? && recs <= recs'
    requires turn.approved == Some(|asked|) && TurnApproved(cfg, turn, asked + [AskedOf(out)])
    requires turn.run.stop.InterruptedAt? ==>
      && (ShownTo(cfg, AskedOf(turn.run))
          || (Own(cfg, recs', AskedOf(turn.run)) && SameVisit(AskedOf(out), AskedOf(turn.run))))
      && (Quiet(cfg) ==> recs != [] && recs' != [] && HopAt(recs) < HopAt(recs'))
    ensures Driving(cfg, open, recs', turn.run, asked + [AskedOf(out)], turns + [turn], answers)
  {
    FairStays(cfg, recs, recs', asked + [AskedOf(out)], open);
  }

  /** When a driver gets to ask, the thread stands paused at its worker. */
  lemma AsksAtTheTip(cfg: SupervisorConfig, origin: State, recs: seq<Rec>, cmds: seq<Command>, out: RunOut)
    requires LegalWorkers(cfg.workers) && Standing(cfg, origin, recs, cmds, out) && out.stop.InterruptedAt?
    ensures recs != [] && 1 <= HopAt(recs) <= Hops(cfg)
    ensures AskedOf(out) == QuestionAt(recs[|recs| - 1]) && (QuietGates(cfg) ==> ShownTo(cfg, AskedOf(out)))
    ensures ShownTo(cfg, AskedOf(out)) || Own(cfg, recs, AskedOf(out))
  {
    PausesAreAtWorkers(cfg, origin, recs, cmds);
    TipIsShownOrOwn(cfg, origin, recs, cmds);
    if QuietGates(cfg) {
      QuietGatesAlwaysShow(cfg, origin, recs, cmds, |recs| - 1);
    }
  }

  function FinalMessage(s: State): string {
    var text := GetString(s, "last_output");
    if text == "" then "Supervisor finished" else text
  }

  /** What holds when the driver stops with a question open, refused or failed. */
  ghost predicate Closed(cfg: SupervisorConfig, open: bool, recs: seq<Rec>, verdict: Verdict, asked: seq<Question>,
                         turns: seq<Turn>, answers: seq<Answer>) {
    && Kept(cfg, open, recs, asked, turns, answers)
    && YesUpTo(answers, if verdict.Denied? then |asked| - 1 else |asked|)
    && !verdict.Finished? && (verdict.Broken? ==> verdict.error == ApprovalFailed)
    && (verdict.Denied? ==> asked != [] && answers[|asked| - 1].No?)
  }

  /** The run that a yes to the open question releases. */
  method ResumeApproved(cfg: SupervisorConfig, store: DurableMemory, thread: string, answers: seq<Answer>,
                        ghost open: bool,
                        out: RunOut, asked: seq<Question>, turns: seq<Turn>, env: seq<Tick>, ghost origin: State,
                        ghost cmds: seq<Command>)
    returns (turn: Turn, rest: seq<Tick>, ghost cmds': seq<Command>)
    requires store.Valid() && thread != "" && FreshEnv(ThreadOf(store.View(), thread), env) && LegalWorkers(cfg.workers)
    requires Standing(cfg, origin, Recs(LogOf(store.logs, thread)), cmds, out) && out.stop.InterruptedAt?
    requires Driving(cfg, open, Recs(LogOf(store.logs, thread)), out, asked, turns, answers)
    requires |asked| < |answers| && answers[|asked|].Yes?
    requires Kept(cfg, open, Recs(LogOf(store.logs, thread)), asked + [AskedOf(out)], turns, answers)
    modifies store, store.threads.Values
    ensures store.Valid() && fresh(store.threads.Values - old(store.threads.Values))
            && FreshEnv(ThreadOf(store.View(), thread), rest)
    ensures Standing(cfg, origin, Recs(LogOf(store.logs, thread)), cmds', turn.run)
    ensures Driving(cfg, open, Recs(LogOf(store.logs, thread)), turn.run, asked + [AskedOf(out)], turns + [turn],
                    answers)
  {
    ghost var recs := Recs(LogOf(store.logs, thread));
    AsksAtTheTip(cfg, origin, recs, cmds, out);
    turn, rest, cmds' := ResumeTurn(cfg, store, thread, |asked|, asked + [AskedOf(out)], env, origin, cmds);
    ghost var recs' := Recs(LogOf(store.logs, thread));
    if turn.run.stop.InterruptedAt? {
      AsksAtTheTip(cfg, origin, recs', cmds', turn.run);
    }
    ResumedToo(cfg, open, recs, recs', out, asked, turns, turn, answers);
  }

  /** One question: who is asked, what the reply makes of it, and the run it releases. */
  method AskOnce(cfg: SupervisorConfig, store: DurableMemory, thread: string, hook: bool, answers: seq<Answer>,
                 ghost open: bool,
                 out: RunOut, asked: seq<Question>, turns: seq<Turn>, env: seq<Tick>, ghost origin: State,
                 ghost cmds: seq<Command>)
    returns (verdict: Option<Verdict>, out': RunOut, asked': seq<Question>, turns': seq<Turn>, rest: seq<Tick>,
             ghost cmds': seq<Command>)
    requires store.Valid() && thread != "" && FreshEnv(ThreadOf(store.View(), thread), env) && LegalWorkers(cfg.workers)
    requires Standing(cfg, origin, Recs(LogOf(store.logs, thread)), cmds, out) && out.stop.InterruptedAt?
    requires Driving(cfg, open, Recs(LogOf(store.logs, thread)), out, asked, turns, answers)
    modifies store, store.threads.Values
    ensures store.Valid() && fresh(store.threads.Values - old(store.threads.Values))
            && FreshEnv(ThreadOf(store.View(), thread), rest)
    ensures Standing(cfg, origin, Recs(LogOf(store.logs, thread)), cmds', out')
    ensures verdict.None? ==>
      Driving(cfg, open, Recs(LogOf(store.logs, thread)), out', asked', turns', answers) && |asked'| == |asked| + 1
    ensures verdict.Some? ==>
      Closed(cfg, open, Recs(LogOf(store.logs, thread)), verdict.value, asked', turns', answers)
  {
    ghost var recs := Recs(LogOf(store.logs, thread));
    AsksAtTheTip(cfg, origin, recs, cmds, out);
    var q := AskedOf(out);
    verdict, out', asked', turns', rest, cmds' := Some(Waiting(q)), out, asked, turns, env, cmds;
    if !hook {
      return;
    }
    if |asked| == |answers| || answers[|asked|].HookFails? {
      verdict := Some(Broken(ApprovalFailed));
      return;
    }
    asked' := asked + [q];
    AskedToo(cfg, open, recs, out, asked, turns, answers);
    if answers[|asked|].No? {
      verdict := Some(Denied);
      return;
    }
    var turn;
    turn, rest, cmds' := ResumeApproved(cfg, store, thread, answers, open, out, asked, turns, env, origin, cmds);
    verdict, turns', out' := None, turns + [turn], turn.run;
  }

  /** What holds when the approval loop is over, by whatever ended it. */
  ghost predicate Ended(cfg: SupervisorConfig, open: bool, recs: seq<Rec>, verdict: Verdict, out: RunOut,
                        asked: seq<Question>, turns: seq<Turn>, answers: seq<Answer>) {
    match verdict
    case Finished(message) => out.stop.Completed? && message == FinalMessage(out.state)
      && Driving(cfg, open, recs, out, asked, turns, answers)
    case Broken(e) => Closed(cfg, open, recs, verdict, asked, turns, answers)
      || (out.stop == Stopped(e) && Driving(cfg, open, recs, out, asked, turns, answers))
    case _ => Closed(cfg, open, recs, verdict, asked, turns, answers)
  }

  /** The approval loop: ask and resume until the graph stops otherwise, or an answer stops
      the driver. */
  method Rounds(cfg: SupervisorConfig, store: DurableMemory, thread: string, hook: bool, answers: seq<Answer>,
                first: RunOut, before: seq<Turn>, env: seq<Tick>, ghost open: bool, ghost origin: State,
                ghost cmds0: seq<Command>)
    returns (stop: Option<Verdict>, out: RunOut, asked: seq<Question>, turns: seq<Turn>, ghost cmds: seq<Command>)
    requires store.Valid() && thread != "" && FreshEnv(ThreadOf(store.View(), thread), env) && LegalWorkers(cfg.workers)
    requires Standing(cfg, origin, Recs(LogOf(store.logs, thread)), cmds0, first)
    requires Driving(cfg, open, Recs(LogOf(store.logs, thread)), first, [], before, answers)
    modifies store, store.threads.Values
    ensures store.Valid() && fresh(store.threads.Values - old(store.threads.Values))
    ensures Standing(cfg, origin, Recs(LogOf(store.logs, thread)), cmds, out)
    ensures stop.None? ==>
      !out.stop.InterruptedAt? && Driving(cfg, open, Recs(LogOf(store.logs, thread)), out, asked, turns, answers)
    ensures stop.Some? ==> Closed(cfg, open, Recs(LogOf(store.logs, thread)), stop.value, asked, turns, answers)
  {
    var rest := env;
    stop, out, asked, turns, cmds := None, first, [], before, cmds0;
    while stop.None? && out.stop.InterruptedAt?
      invariant store.Valid() && fresh(store.threads.Values - old(store.threads.Values))
                && FreshEnv(ThreadOf(store.View(), thread), rest)
      invariant Standing(cfg, origin, Recs(LogOf(store.logs, thread)), cmds, out)
      invariant stop.None? ==> Driving(cfg, open, Recs(LogOf(store.logs, thread)), out, asked, turns, answers)
      invariant stop.Some? ==> Closed(cfg, open, Recs(LogOf(store.logs, thread)), stop.value, asked, turns, answers)
      decreases stop.None?, |answers| - |asked|
    {
      stop, out, asked, turns, rest, cmds := AskOnce(cfg, store, thread, hook, answers, open, out, asked, turns, rest,
                                                     origin, cmds);
    }
  }

  /** The rounds and what the driver makes of their end. */
  method Drive(cfg: SupervisorConfig, store: DurableMemory, thread: string, hook: bool, answers: seq<Answer>,
               first: RunOut, before: seq<Turn>, env: seq<Tick>, ghost ours: bool, ghost open: bool,
               ghost origin: State, ghost cmds0: seq<Command>)
    returns (verdict: Verdict, out: RunOut, asked: seq<Question>, turns: seq<Turn>, ghost cmds: seq<Command>)
    requires store.Valid() && thread != "" && FreshEnv(ThreadOf(store.View(), thread), env) && LegalWorkers(cfg.workers)
    requires Stands(ours, cfg, origin, Recs(LogOf(store.logs, thread)), cmds0, first)
    requires Driving(cfg, open, Recs(LogOf(store.logs, thread)), first, [], before, answers)
    modifies store, store.threads.Values
    ensures store.Valid() && fresh(store.threads.Values - old(store.threads.Values))
    ensures Stands(ours, cfg, origin, Recs(LogOf(store.logs, thread)), cmds, out)
    ensures Ended(cfg, open, Recs(LogOf(store.logs, thread)), verdict, out, asked, turns, answers)
  {
    var stop := None;
    out, asked, turns, cmds := first, [], before, cmds0;
    if first.stop.InterruptedAt? {
      stop, out, asked, turns, cmds := Rounds(cfg, store, thread, hook, answers, first, before, env, open, origin,
                                              cmds0);
    }
    verdict := match stop
      case Some(early) => early
      case None => if out.stop.Completed? then Finished(FinalMessage(out.state)) else Broken(out.stop.error);
  }

  lemma FirstQuestion(ours: bool, open: bool, cfg: SupervisorConfig, origin: State, recs: seq<Rec>, cmds: seq<Command>,
                      out: RunOut, turns: seq<Turn>, answers: seq<Answer>)
    requires LegalWorkers(cfg.workers) && Stands(ours, cfg, origin, recs, cmds, out)
    requires turns == [] || (|turns| == 1 && turns[0].approved.None? && TurnApproved(cfg, turns[0], []))
    requires out.stop.InterruptedAt? ==> ShownTo(cfg, AskedOf(out)) || open
    ensures Driving(cfg, open, recs, out, [], turns, answers)
  {
    if out.stop.InterruptedAt? {
      AsksAtTheTip(cfg, origin, recs, cmds, out);
    }
  }

  /** The first run of the driver, or the question that is already open. */
  method Begin(cfg: SupervisorConfig, store: DurableMemory, thread: string, fromCheckpoint: bool,
               ghost answers: seq<Answer>,
               env: seq<Tick>, ghost origin0: State, ghost cmds0: seq<Command>)
    returns (out: RunOut, turns: seq<Turn>, rest: seq<Tick>, ghost origin: State, ghost cmds: seq<Command>)
    requires store.Valid() && thread != "" && FreshEnv(ThreadOf(store.View(), thread), env) && LegalWorkers(cfg.workers)
    requires fromCheckpoint ==> Ours(cfg, origin0, Recs(LogOf(store.logs, thread)), cmds0)
    modifies store, store.threads.Values
    ensures store.Valid() && fresh(store.threads.Values - old(store.threads.Values))
            && FreshEnv(ThreadOf(store.View(), thread), rest)
    ensures Stands(fromCheckpoint || old(LogOf(store.logs, thread)) == [], cfg, origin,
                   Recs(LogOf(store.logs, thread)), cmds, out)
    ensures Driving(cfg, fromCheckpoint && TipInterrupted(old(Recs(LogOf(store.logs, thread)))),
                    Recs(LogOf(store.logs, thread)), out, [], turns, answers)
  {
    ghost var open := fromCheckpoint && TipInterrupted(Recs(LogOf(store.logs, thread)));
    ghost var ours := fromCheckpoint || LogOf(store.logs, thread) == [];
    if fromCheckpoint {
      out, turns, rest, cmds := PickUp(cfg, store, thread, env, origin0, cmds0);
      origin := origin0;
    } else {
      var turn;
      turn, rest, cmds := Start(cfg, store, thread, env);
      out, turns, origin := turn.run, [turn], InitialState(cfg);
    }
    FirstQuestion(ours, open, cfg, origin, Recs(LogOf(store.logs, thread)), cmds, out, turns, answers);
  }

  /** What the driver guarantees about its questions, its runs, its result and the thread.
      `open` says that it found the thread waiting for an answer. */
  ghost predicate RunContract(ours: bool, open: bool, cfg: SupervisorConfig, origin: State, recs: seq<Rec>,
                              cmds: seq<Command>,
                              r: SupervisorResult, asked: seq<Question>, turns: seq<Turn>, answers: seq<Answer>)
  {
    // every gated body that ran had its own question, answered yes, and ran in the state
    // that question was asked in; no two runs share a question
    && Answered(turns, asked, answers) && AllApproved(cfg, turns, asked)
    // each question about a gated worker showed its approval payload, except exactly a
    // body's own question, which the body asked when it ran on a yes to the question before
    // it, about the same worker in the same state; with quiet gates there is no exception
    && FairlyAsked(cfg, recs, asked, open) && (QuietGates(cfg) ==> AllShown(cfg, asked))
    && YesUpTo(answers, if r.verdict.Denied? then |asked| - 1 else |asked|)
    && (r.verdict.Denied? ==> asked != [] && answers[|asked| - 1].No?)
    // no run trips the step cap, and quiet workers cause at most MaxSteps questions
    && (r.verdict.Broken? ==> !OutOfBounds(Stopped(r.verdict.error)))
    && (Quiet(cfg) ==> |asked| <= Hops(cfg))
    // the thread holds one supervisor history, finished if the driver says so
    && (ours ==> Ours(cfg, origin, recs, cmds))
    && (r.verdict.Finished? ==>
          && AtEnd(Tip(Star(cfg), origin, recs).node)
          && r == SupervisorResult(Tip(Star(cfg), origin, recs).state, Finished(FinalMessage(r.state))))
  }

  lemma DriveConcludes(ours: bool, open: bool, cfg: SupervisorConfig, origin: State, recs: seq<Rec>, cmds: seq<Command>,
                       verdict: Verdict, out: RunOut, asked: seq<Question>, turns: seq<Turn>, answers: seq<Answer>)
    requires Stands(ours, cfg, origin, recs, cmds, out)
    requires Ended(cfg, open, recs, verdict, out, asked, turns, answers)
    ensures RunContract(ours, open, cfg, origin, recs, cmds, SupervisorResult(out.state, verdict), asked, turns,
                        answers)
  {
  }

  /** Begin and drive, for a configuration whose workers are in order. */
  method Supervise(cfg: SupervisorConfig, store: DurableMemory, thread: string, fromCheckpoint: bool, hook: bool,
                   answers: seq<Answer>,
                   env: seq<Tick>, ghost origin0: State, ghost cmds0: seq<Command>)
    returns (r: SupervisorResult, asked: seq<Question>, turns: seq<Turn>, ghost origin: State, ghost cmds: seq<Command>)
    requires store.Valid() && thread != "" && FreshEnv(ThreadOf(store.View(), thread), env) && LegalWorkers(cfg.workers)
    requires fromCheckpoint ==> Ours(cfg, origin0, Recs(LogOf(store.logs, thread)), cmds0)
    modifies store, store.threads.Values
    ensures store.Valid() && fresh(store.threads.Values - old(store.threads.Values))
    ensures RunContract(fromCheckpoint || old(LogOf(store.logs, thread)) == [],
                  fromCheckpoint && TipInterrupted(old(Recs(LogOf(store.logs, thread)))),
                  cfg, origin, Recs(LogOf(store.logs, thread)), cmds, r, asked, turns, answers)
  {
    ghost var ours := fromCheckpoint || LogOf(store.logs, thread) == [];
    ghost var open := fromCheckpoint && TipInterrupted(Recs(LogOf(store.logs, thread)));
    var out, rest, verdict;
    out, turns, rest, origin, cmds := Begin(cfg, store, thread, fromCheckpoint, answers, env, origin0, cmds0);
    ghost var mid := store.threads.Values;
    verdict, out, asked, turns, cmds := Drive(cfg, store, thread, hook, answers, out, turns, rest, ours, open, origin,
                                              cmds);
    assert fresh(store.threads.Values - old(store.threads.Values)) by {
      assert store.threads.Values - old(store.threads.Values) <=
             (store.threads.Values - mid) + (mid - old(store.threads.Values));
    }
    DriveConcludes(ours, open, cfg, origin, Recs(LogOf(store.logs, thread)), cmds, verdict, out, asked, turns, answers);
    r := SupervisorResult(out.state, verdict);
  }

  /** The whole driver. `hook` says whether an approval hook is set, `answers` what it
      replies; it fails once they are used up. */
  method RunSupervisor(cfg: SupervisorConfig, store: DurableMemory, thread: string, fromCheckpoint: bool, hook: bool,
                       answers: seq<Answer>,
                       env: seq<Tick>, ghost origin0: State, ghost cmds0: seq<Command>)
    returns (r: SupervisorResult, asked: seq<Question>, turns: seq<Turn>, ghost origin: State, ghost cmds: seq<Command>)
    requires store.Valid() && thread != "" && FreshEnv(ThreadOf(store.View(), thread), env)
    requires fromCheckpoint ==> Ours(cfg, origin0, Recs(LogOf(store.logs, thread)), cmds0)
    modifies store, store.threads.Values
    ensures store.Valid() && fresh(store.threads.Values - old(store.threads.Values))
    ensures !LegalWorkers(cfg.workers) ==>
            r.verdict == Broken(BadWorkers) && turns == [] && store.View() == old(store.View())
    ensures LegalWorkers(cfg.workers) ==>
      RunContract(fromCheckpoint || old(LogOf(store.logs, thread)) == [],
                  fromCheckpoint && TipInterrupted(old(Recs(LogOf(store.logs, thread)))),
                  cfg, origin, Recs(LogOf(store.logs, thread)), cmds, r, asked, turns, answers)
  {
    ghost var view := store.View();
    var ok := CheckWorkers(cfg.workers);
    assert store.View() == view;
    if ok {
      r, asked, turns, origin, cmds := Supervise(cfg, store, thread, fromCheckpoint, hook, answers, env, origin0,
                                                 cmds0);
    } else {
      r, asked, turns, origin, cmds := SupervisorResult(map[], Broken(BadWorkers)), [], [], origin0, cmds0;
    }
  }
}
