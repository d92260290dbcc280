/** Invoke and Resume (graph/builder.go): how a run is entered, on a real store and as a
    function of the thread's durable records, and what any sequence of such calls leaves. */
module Invocation {
  import opened Common
  import opened Values
  import opened Artifacts
  import opened ThreadSpec
  import opened ThreadInvariant
  import opened DurableMemory
  import opened EngineSpec
  import opened History
  import opened HistoryFacts
  import opened RunFacts
  import opened EngineRun

  /** A call that never reached the run loop. */
  function Refused(state: State, error: Error): RunOut {
    RunOut([], [], [], [], state, Stopped(error))
  }

  /** A run between its start event and its end event. */
  function Framed(start: Event, run: RunOut): RunOut {
    run.(events := [start] + run.events + [Event(RunEnd, "", 0, "")])
  }

  /** What a thread durably is to the engine: its records and the id of the last one. */
  datatype Durable = Durable(recs: seq<Rec>, latest: string)

  const NOTHING := Durable([], "")

  function After(d: Durable, out: RunOut): Durable {
    Durable(d.recs + out.recs, if out.ids == [] then d.latest else out.ids[|out.ids| - 1])
  }

  function Invoked(g: Graph, d: Durable, input: State, cap: int, env: seq<Tick>): RunOut {
    Framed(Event(RunStart, "", 0, ""), RunLoop(g, cap, d.latest == "", map[], Cursor(g.entry, input, 0), Nil, "", env))
  }

  /** Everything Resume does before the run loop: it turns the call away, or enters at a
      cursor with the value for the first node. */
  datatype Entrance = TurnedAway(out: RunOut) | Entered(from: Cursor, value: Value)

  function EntranceOf(g: Graph, d: Durable, cmd: Command, expected: string): Entrance {
    if d.recs == [] then TurnedAway(Refused(map[], NoCheckpoint))
    else if expected != "" && d.latest != expected then TurnedAway(Refused(map[], ExpectedCheckpointMismatch))
    else
      var c := Enter(g, map[], d.recs, cmd);
      if AtEnd(c.node) then
        TurnedAway(RunOut([], [], [Event(RunResume, "", c.step, d.latest), Event(RunEnd, "", c.step, d.latest)], [],
                          c.state, Completed))
      else if TipInterrupted(d.recs) && cmd.resume == Nil then TurnedAway(Refused(c.state, ResumeValueRequired))
      else Entered(c, Delivered(d.recs, cmd))
  }

  function Resumed(g: Graph, d: Durable, cap: int, cmd: Command, expected: string, env: seq<Tick>): RunOut {
    match EntranceOf(g, d, cmd, expected)
    case TurnedAway(out) => out
    case Entered(c, value) =>
      Framed(Event(RunResume, c.node, c.step, d.latest),
             RunLoop(g, cap, true, SessionsOf(d.recs), c, value, d.latest, env))
  }

  // ------------------------------------------------------------- on a real store

  /** The durable content of a thread in a store. */
  ghost function DurableOf(view: map<string, Thread>, logs: map<string, seq<Entry>>, thread: string): Durable {
    Durable(Recs(LogOf(logs, thread)), ThreadOf(view, thread).latest)
  }

  lemma GrewDurable(view: map<string, Thread>, logs: map<string, seq<Entry>>, view': map<string, Thread>,
                    logs': map<string, seq<Entry>>, thread: string, out: RunOut)
    requires ViewInv(view, logs) && ViewInv(view', logs') && Grew(view, logs, view', logs', thread, out.recs, out.ids)
    ensures DurableOf(view', logs', thread) == After(DurableOf(view, logs, thread), out)
  {
    ThreadOfInv(view, logs, thread);
    ThreadOfInv(view', logs', thread);
    var log, log' := LogOf(logs, thread), LogOf(logs', thread);
    if out.ids != [] {
      assert log'[|log| + (|out.ids| - 1)].snap.id == out.ids[|out.ids| - 1];
    } else {
      assert log' == log;
    }
  }

  lemma NothingGrew(view: map<string, Thread>, logs: map<string, seq<Entry>>, thread: string)
    ensures Grew(view, logs, view, logs, thread, [], [])
  {
    LogGrewByNone(LogOf(logs, thread));
  }

  method Invoke(g: Graph, store: DurableMemory, thread: string, input: State, cap: int, env: seq<Tick>,
                ghost later: seq<Tick> := [])
    returns (out: RunOut, rest: seq<Tick>)
    requires store.Valid() && thread != "" && FreshEnv(ThreadOf(store.View(), thread), env + later)
    modifies store, store.threads.Values
    ensures store.Valid() && fresh(store.threads.Values - old(store.threads.Values))
    ensures out == Invoked(g, old(DurableOf(store.View(), store.logs, thread)), input, cap, env)
    ensures Grew(old(store.View()), old(store.logs), store.View(), store.logs, thread, out.recs, out.ids)
    ensures DurableOf(store.View(), store.logs, thread) == After(old(DurableOf(store.View(), store.logs, thread)), out)
    ensures FreshEnv(ThreadOf(store.View(), thread), rest + later)
  {
    ghost var view, logs := store.View(), store.logs;
    var run;
    run, rest := Run(g, store, thread, cap, Cursor(g.entry, input, 0), Nil, "", env, later);
    out := run.(events := [Event(RunStart, "", 0, "")] + run.events + [Event(RunEnd, "", 0, "")]);
    GrewDurable(view, logs, store.View(), store.logs, thread, out);
  }

  /** What the loaded snapshot says about the records of the thread. */
  lemma LoadedTip(g: Graph, t: Thread, log: seq<Entry>, thread: string)
    requires ThreadInv(t, log, thread)
    ensures LatestOf(t).None? <==> Recs(log) == []
    ensures LatestOf(t).Some? ==>
      var snap := LatestOf(t).value;
      && snap.id == t.latest
      && Tip(g, map[], Recs(log)) == Cursor(snap.node, snap.state, snap.step)
      && TipInterrupted(Recs(log)) == snap.interrupt
      && SeenSessions(t, t.latest) == SessionsOf(Recs(log))
  {
    LatestIsTip(t, log, thread);
    TipIsSeen(t, log, thread);
  }

  /** What Resume makes of the snapshot it has loaded. */
  method Admit(g: Graph, snap: Snapshot, cmd: Command, expected: string) returns (entrance: Entrance)
    ensures var c := Patched(g, Cursor(snap.node, snap.state, snap.step), cmd);
      entrance ==
        if expected != "" && snap.id != expected then TurnedAway(Refused(map[], ExpectedCheckpointMismatch))
        else if AtEnd(c.node) then
          TurnedAway(RunOut([], [], [Event(RunResume, "", c.step, snap.id), Event(RunEnd, "", c.step, snap.id)], [],
                            c.state, Completed))
        else if snap.interrupt && cmd.resume == Nil then TurnedAway(Refused(c.state, ResumeValueRequired))
        else Entered(c, if snap.interrupt then cmd.resume else Nil)
  {
    if expected != "" && snap.id != expected {
      return TurnedAway(Refused(map[], ExpectedCheckpointMismatch));
    }
    var state := Apply(snap.state, cmd.update, g.reducers);
    var node := if cmd.goto != "" then cmd.goto else snap.node;
    if node == "" || node == END {
      var events := [Event(RunResume, "", snap.step, snap.id), Event(RunEnd, "", snap.step, snap.id)];
      return TurnedAway(RunOut([], [], events, [], state, Completed));
    }
    if snap.interrupt && cmd.resume == Nil {
      return TurnedAway(Refused(state, ResumeValueRequired));
    }
    return Entered(Cursor(node, state, snap.step), if snap.interrupt then cmd.resume else Nil);
  }

  method LoadTip(g: Graph, store: DurableMemory, thread: string, cmd: Command, expected: string)
      returns (entrance: Entrance, parent: string)
    requires store.Valid()
    ensures entrance == EntranceOf(g, DurableOf(store.View(), store.logs, thread), cmd, expected)
    ensures entrance.Entered? ==> parent == ThreadOf(store.View(), thread).latest
  {
    ThreadOfInv(store.View(), store.logs, thread);
    LoadedTip(g, ThreadOf(store.View(), thread), LogOf(store.logs, thread), thread);
    var latest := store.GetLatest(thread);
    if latest.None? {
      return TurnedAway(Refused(map[], NoCheckpoint)), "";
    }
    parent := latest.value.id;
    entrance := Admit(g, latest.value, cmd, expected);
  }

  method Resume(g: Graph, store: DurableMemory, thread: string, cap: int, cmd: Command, expected: string,
                env: seq<Tick>,
                ghost later: seq<Tick> := [])
    returns (out: RunOut, rest: seq<Tick>)
    requires store.Valid() && thread != "" && FreshEnv(ThreadOf(store.View(), thread), env + later)
    modifies store, store.threads.Values
    ensures store.Valid() && fresh(store.threads.Values - old(store.threads.Values))
    ensures out == Resumed(g, old(DurableOf(store.View(), store.logs, thread)), cap, cmd, expected, env)
    ensures Grew(old(store.View()), old(store.logs), store.View(), store.logs, thread, out.recs, out.ids)
    ensures DurableOf(store.View(), store.logs, thread) == After(old(DurableOf(store.View(), store.logs, thread)), out)
    ensures FreshEnv(ThreadOf(store.View(), thread), rest + later)
  {
    ghost var view, logs := store.View(), store.logs;
    var entrance, parent := LoadTip(g, store, thread, cmd, expected);
    assert store.View() == view;
    match entrance {
      case TurnedAway(early) =>
        NothingGrew(view, store.logs, thread);
        out, rest := early, env;
      case Entered(c, value) =>
        ThreadOfInv(view, store.logs, thread);
        TipIsSeen(ThreadOf(view, thread), LogOf(store.logs, thread), thread);
        var run;
        run, rest := Run(g, store, thread, cap, c, value, parent, env, later);
        out := run.(events := [Event(RunResume, c.node, c.step, parent)] + run.events + [Event(RunEnd, "", 0, "")]);
        GrewDurable(view, logs, store.View(), store.logs, thread, out);
    }
  }

  // --------------------------------------------------- one call, many calls

  /** The events of a call that reached the loop: one start event, then the run's blocks
      mirroring its commits, then one end event. */
  lemma CallMirrorsStorage(start: Event, g: Graph, cap: int, fits: bool, sessions: map<string, Payload>, c: Cursor,
                           resume: Value, parent: string, env: seq<Tick>)
    requires start.kind == RunStart || start.kind == RunResume
    ensures var out := Framed(start, RunLoop(g, cap, fits, sessions, c, resume, parent, env));
      var n := |out.events|;
      && n >= 2 && out.events[0] == start && out.events[n - 1].kind == RunEnd
      && InBlocks(out.events[1..n - 1], parent)
      && CheckpointIds(out.events) == out.ids
  {
    var run := RunLoop(g, cap, fits, sessions, c, resume, parent, env);
    var end := Event(RunEnd, "", 0, "");
    EventsMirrorStorage(g, cap, fits, sessions, c, resume, parent, env);
    var out := Framed(start, run);
    assert out.events[1..|out.events| - 1] == run.events;
    OnlyCheckpoint([start], 0);
    OnlyCheckpoint([end], 0);
    CheckpointIdsConcat([start], run.events);
    CheckpointIdsConcat([start] + run.events, [end]);
  }

  datatype Call = Call(cap: int, cmd: Command, expected: string, env: seq<Tick>)

  /** A thread started by one Invoke and continued by any sequence of Resume calls, each
      under its own schedule of crashes, cancellations, lost leases and failing nodes. */
  function Driven(g: Graph, input: State, cap: int, env: seq<Tick>, calls: seq<Call>): Durable {
    if calls == [] then After(NOTHING, Invoked(g, NOTHING, input, cap, env))
    else
      var d, call := Driven(g, input, cap, env, calls[..|calls| - 1]), calls[|calls| - 1];
      After(d, Resumed(g, d, call.cap, call.cmd, call.expected, call.env))
  }

  lemma ResumedIsLawful(g: Graph, origin: State, d: Durable, cmds: seq<Command>, cap: int, cmd: Command,
                        expected: string, env: seq<Tick>)
    requires Lawful(g, origin, d.recs, cmds)
    ensures MayAppend(g, origin, d.recs, cmds, cmd, Resumed(g, d, cap, cmd, expected, env).recs)
  {
    MayAppendNone(g, origin, d.recs, cmds, cmd);
    if EntranceOf(g, d, cmd, expected).Entered? {
      RunsAreLawful(g, origin, d.recs, cmds, cmd, cap, d.latest, env);
    }
  }

  predicate FromCall(c: Command, calls: seq<Call>) {
    c == PLAIN || exists k :: 0 <= k < |calls| && calls[k].cmd == c
  }

  ghost predicate CommandsOf(cmds: seq<Command>, calls: seq<Call>) {
    forall i :: 0 <= i < |cmds| ==> FromCall(cmds[i], calls)
  }

  /** Whatever the calls do, they leave a lawful history under no commands but theirs. */
  lemma {:induction false} DrivenIsLawful(g: Graph, input: State, cap: int, env: seq<Tick>, calls: seq<Call>)
      returns (cmds: seq<Command>)
    ensures Lawful(g, input, Driven(g, input, cap, env, calls).recs, cmds) && CommandsOf(cmds, calls)
  {
    if calls == [] {
      MergedNothing(input, g.reducers);
      RunsAreLawful(g, input, [], [], PLAIN, cap, "", env);
      var out := Invoked(g, NOTHING, input, cap, env);
      cmds := [] + CommandsFor(PLAIN, |out.recs|);
    } else {
      var n := |calls| - 1;
      var before := DrivenIsLawful(g, input, cap, env, calls[..n]);
      var d, call := Driven(g, input, cap, env, calls[..n]), calls[n];
      ResumedIsLawful(g, input, d, before, call.cap, call.cmd, call.expected, call.env);
      cmds := before + CommandsFor(call.cmd, |Resumed(g, d, call.cap, call.cmd, call.expected, call.env).recs|);
      forall i | 0 <= i < |cmds| ensures FromCall(cmds[i], calls) {
        if i < |before| && cmds[i] != PLAIN {
          assert FromCall(before[i], calls[..n]);
          var k :| 0 <= k < n && calls[..n][k].cmd == before[i];
          assert calls[k].cmd == cmds[i];
        }
      }
    }
  }

  function TicksOf(calls: seq<Call>): seq<Tick> {
    if calls == [] then [] else calls[0].env + TicksOf(calls[1..])
  }

  lemma FreshSuffix(t: Thread, used: seq<Tick>, later: seq<Tick>)
    requires FreshEnv(t, used + later)
    ensures FreshEnv(t, later)
  {
    var all := used + later;
    assert forall k :: 0 <= k < |later| ==> later[k] == all[|used| + k];
    forall k, l | 0 <= k < l < |later| ensures Apart(later[k], later[l]) {
      assert Apart(all[|used| + k], all[|used| + l]);
    }
  }

  /** One of these calls, with the ids of the later ones still unused afterwards. The ghosts
      name the durable content before and after. */
  method CallOne(g: Graph, store: DurableMemory, thread: string, call: Call, ghost d: Durable, ghost later: seq<Tick>)
    returns (out: RunOut, ghost d': Durable)
    requires store.Valid() && thread != "" && FreshEnv(ThreadOf(store.View(), thread), call.env + later)
    requires d == DurableOf(store.View(), store.logs, thread)
    modifies store, store.threads.Values
    ensures store.Valid() && fresh(store.threads.Values - old(store.threads.Values))
    ensures out == Resumed(g, d, call.cap, call.cmd, call.expected, call.env) && d' == After(d, out)
    ensures DurableOf(store.View(), store.logs, thread) == d' && FreshEnv(ThreadOf(store.View(), thread), later)
  {
    var rest;
    out, rest := Resume(g, store, thread, call.cap, call.cmd, call.expected, call.env, later);
    FreshSuffix(ThreadOf(store.View(), thread), rest, later);
    d' := After(d, out);
  }

  /** What is left of the calls to make, from durable content `d` on. */
  ghost predicate Leads(g: Graph, d: Durable, calls: seq<Call>, final: Durable)
    decreases |calls|
  {
    if calls == [] then d == final
    else
      var call := calls[0];
      Leads(g, After(d, Resumed(g, d, call.cap, call.cmd, call.expected, call.env)), calls[1..], final)
  }

  lemma {:induction false} DrivenLeads(g: Graph, input: State, cap: int, env: seq<Tick>, calls: seq<Call>, n: nat)
    requires n <= |calls|
    ensures Leads(g, Driven(g, input, cap, env, calls[..n]), calls[n..], Driven(g, input, cap, env, calls))
    decreases |calls| - n
  {
    if n == |calls| {
      assert calls[..n] == calls;
    } else {
      assert calls[..n + 1][..n] == calls[..n] && calls[n..][1..] == calls[n + 1..];
      DrivenLeads(g, input, cap, env, calls, n + 1);
    }
  }

  /** The first call of a thread. */
  method FirstCall(g: Graph, store: DurableMemory, thread: string, input: State, cap: int, env: seq<Tick>,
                   ghost later: seq<Tick>)
    returns (out: RunOut)
    requires store.Valid() && thread != "" && LogOf(store.logs, thread) == []
    requires FreshEnv(ThreadOf(store.View(), thread), env + later)
    modifies store, store.threads.Values
    ensures store.Valid() && fresh(store.threads.Values - old(store.threads.Values))
    ensures out == Invoked(g, NOTHING, input, cap, env)
    ensures DurableOf(store.View(), store.logs, thread) == After(NOTHING, out)
    ensures FreshEnv(ThreadOf(store.View(), thread), later)
  {
    ThreadOfInv(store.View(), store.logs, thread);
    assert DurableOf(store.View(), store.logs, thread) == NOTHING;
    var rest;
    out, rest := Invoke(g, store, thread, input, cap, env, later);
    FreshSuffix(ThreadOf(store.View(), thread), rest, later);
  }

  /** The same thread driven on a real store: one Invoke and then the Resumes in turn leave
      exactly the durable records that the calls describe, and these are a lawful history. */
  method DriveThread(g: Graph, store: DurableMemory, thread: string, input: State, cap: int, env: seq<Tick>,
                     calls: seq<Call>)
    returns (last: RunOut, ghost cmds: seq<Command>)
    requires store.Valid() && thread != "" && LogOf(store.logs, thread) == []
    requires FreshEnv(ThreadOf(store.View(), thread), env + TicksOf(calls))
    modifies store, store.threads.Values
    ensures store.Valid() && fresh(store.threads.Values - old(store.threads.Values))
    ensures DurableOf(store.View(), store.logs, thread) == Driven(g, input, cap, env, calls)
    ensures Lawful(g, input, Recs(LogOf(store.logs, thread)), cmds) && CommandsOf(cmds, calls)
  {
    last := FirstCall(g, store, thread, input, cap, env, TicksOf(calls));
    ghost var d, final := After(NOTHING, last), Driven(g, input, cap, env, calls);
    var todo := calls;
    DrivenLeads(g, input, cap, env, calls, 0);
    assert calls[..0] == [] && calls[0..] == calls;
    while todo != []
      invariant store.Valid() && fresh(store.threads.Values - old(store.threads.Values))
      invariant DurableOf(store.View(), store.logs, thread) == d
                && FreshEnv(ThreadOf(store.View(), thread), TicksOf(todo))
      invariant Leads(g, d, todo, final)
      decreases |todo|
    {
      last, d := CallOne(g, store, thread, todo[0], d, TicksOf(todo[1..]));
      assert fresh(store.threads.Values - old(store.threads.Values));
      todo := todo[1..];
    }
    cmds := DrivenIsLawful(g, input, cap, env, calls);
  }

  /** Crash/resume equivalence over calls: however often a thread was stopped and plainly
      resumed, what it has is a prefix of the one undisturbed run, and all of it at the end. */
  lemma DrivenEquivalence(g: Graph, input: State, cap: int, env: seq<Tick>, calls: seq<Call>, calm: seq<Tick>)
    requires forall k :: 0 <= k < |calls| ==> calls[k].cmd == PLAIN
    requires var recs := Driven(g, input, cap, env, calls).recs;
      (forall i :: 0 <= i < |recs| ==> !recs[i].interrupt) && |recs| <= |calm| && Undisturbed(calm)
    ensures var recs := Driven(g, input, cap, env, calls).recs;
      var straight := Invoked(g, NOTHING, input, 0, calm);
      recs <= straight.recs && (AtEnd(Tip(g, input, recs).node) ==> recs == straight.recs && straight.stop == Completed)
  {
    var recs := Driven(g, input, cap, env, calls).recs;
    var cmds := DrivenIsLawful(g, input, cap, env, calls);
    assert Straightforward(recs, cmds) by {
      forall i | 0 <= i < |cmds| ensures cmds[i] == PLAIN {
        assert FromCall(cmds[i], calls);
      }
    }
    CrashResumeEquivalence(g, input, recs, cmds, calm);
  }

  /** From whatever point a run was cut off, one undisturbed resume commits exactly the rest. */
  lemma ResumeCompletes(g: Graph, origin: State, whole: seq<Rec>, cmds: seq<Command>, k: nat, latest: string,
                        env: seq<Tick>)
    requires Lawful(g, origin, whole, cmds) && Straightforward(whole, cmds) && AtEnd(Tip(g, origin, whole).node)
    requires 0 < k <= |whole| && Undisturbed(env) && |whole| - k <= |env|
    ensures var out := Resumed(g, Durable(whole[..k], latest), 0, PLAIN, "", env);
      out.recs == whole[k..] && out.stop == Completed
  {
    StraightFrom(g, origin, whole, cmds, k, latest, env);
    MergedNothing(whole[k - 1].state, g.reducers);
    if k == |whole| {
      assert whole[..k] == whole && whole[k..] == [];
    }
  }

  // ------------------------------------------------------------- compiled graphs

  /** What Compile checks; node names were checked when they were added. */
  predicate Compiles(g: Graph) {
    && (forall n :: n in g.nodes ==> n != "" && n != START && n != END)
    && g.entry in g.nodes
    && (forall from :: from in g.edges ==>
         (from in g.nodes || from == START) && (g.edges[from] == END || g.edges[from] in g.nodes))
    && (forall from :: from in g.routes ==> from in g.nodes)
  }

  /** A run of a compiled graph never meets an unknown node, unless a command sent it there;
      a route can still fail. */
  lemma {:induction false} CompiledRunsKnowTheirNodes(g: Graph, cap: int, fits: bool, sessions: map<string, Payload>,
                                                      c: Cursor, resume: Value, parent: string, env: seq<Tick>)
    requires Compiles(g) && (AtEnd(c.node) || c.node in g.nodes)
    ensures var out := RunLoop(g, cap, fits, sessions, c, resume, parent, env);
      && out.stop != Stopped(UnknownNode)
      && forall k :: 0 <= k < |out.recs| ==> AtEnd(out.recs[k].node) || out.recs[k].node in g.nodes
    decreases |env|
  {
    if !AtEnd(c.node) && env != [] {
      AttemptPossible(g, c, resume, sessions);
      Unrolled(g, cap, fits, sessions, c, resume, parent, env);
      var it := Iterate(g, fits, sessions, c, resume, parent, env[0]);
      if it.next.Some? && !Capped(cap, it.next.value.step) {
        var rec := it.next.value;
        CompiledRunsKnowTheirNodes(g, cap, fits, sessions + SavedBy(rec.arts), Cursor(rec.node, rec.state, rec.step),
                                   Nil, env[0].id, env[1..]);
      }
    }
  }
}
