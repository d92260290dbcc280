/** The engine as it runs (graph/builder.go): a loop over state, node, step and parent
    checkpoint that mutates a store, proved equal to the run function and to append its
    records to the thread's log. */
module EngineRun {
  import opened Common
  import opened Values
  import opened Artifacts
  import opened ThreadSpec
  import opened ThreadInvariant
  import opened DurableMemory
  import opened EngineSpec
  import opened HistoryFacts
  import opened Transparency
  import opened RunFacts
  import LeaseSpec
  import MemoryLease

  // ------------------------------------------------------------- random ids

  /** The ids of one iteration are unused in this thread. */
  ghost predicate Drawable(t: Thread, tick: Tick) {
    tick.id != "" && !HasId(t.history, tick.id) && FreshDraw(t, tick.draw)
  }

  ghost predicate Apart(a: Tick, b: Tick) {
    a.id != b.id && forall i, j :: a.draw(i) != b.draw(j)
  }

  /** The ids of a whole schedule are unused and pairwise distinct. */
  ghost predicate FreshEnv(t: Thread, env: seq<Tick>) {
    && (forall k :: 0 <= k < |env| ==> Drawable(t, env[k]))
    && (forall k, l :: 0 <= k < l < |env| ==> Apart(env[k], env[l]))
  }

  lemma FreshAfterCommit(t: Thread, log: seq<Entry>, snap: Snapshot, arts: seq<Artifact>, env: seq<Tick>)
    requires ThreadInv(t, log, snap.thread) && env != [] && FreshEnv(t, env) && snap.id == env[0].id
    ensures FreshEnv(Append(t, snap, arts, env[0].draw), env[1..])
  {
    var base := Saved(t.sessions, t.meta, ParentRefs(t, snap.parent));
    SaveSessionsExact(base, snap.thread, arts, env[0].draw, |arts|);
    var t' := Append(t, snap, arts, env[0].draw);
    forall k | 1 <= k < |env| ensures Drawable(t', env[k]) {
      assert Drawable(t, env[k]) && Apart(env[0], env[k]);
    }
  }

  // ------------------------------------------------------------- one super-step

  /** What one iteration did to the store: nothing a reader could see, or exactly one commit. */
  ghost predicate Stored(view: map<string, Thread>, logs: map<string, seq<Entry>>,
                         view': map<string, Thread>, logs': map<string, seq<Entry>>,
                         thread: string, parent: string, recs: seq<Rec>, t: Tick)
  {
    if recs == [] then SameReads(view, view', logs, logs')
    else
      var before, snap := ThreadOf(view, thread), SnapOf(recs[0], t.id, parent, thread);
      && |recs| == 1 && before.latest == parent
      && view' == view[thread := Append(before, snap, recs[0].arts, t.draw)]
      && logs' == logs[thread := LogOf(logs, thread) + [Entry(snap.(revision := before.revision + 1), recs[0].arts)]]
  }

  lemma NothingStored(view: map<string, Thread>, logs: map<string, seq<Entry>>, thread: string, parent: string, t: Tick)
    ensures Stored(view, logs, view, logs, thread, parent, [], t)
  {
  }

  /** What a node sees when it asks the store for sessions at its parent checkpoint. */
  method ReadSessions(store: DurableMemory, thread: string, parent: string) returns (m: map<string, Payload>)
    ensures m == SeenSessions(ThreadOf(store.View(), thread), parent)
  {
    if parent == "" || thread !in store.threads {
      return map[];
    }
    var t := store.threads[thread];
    if parent !in t.refs {
      return map[];
    }
    var refs := t.refs[parent];
    return map a | a in refs && refs[a] in t.sessions :: t.sessions[refs[a]];
  }

  method Persist(store: DurableMemory, thread: string, parent: string, rec: Rec, t: Tick) returns (err: Option<Error>)
    requires store.Valid() && thread != "" && Drawable(ThreadOf(store.View(), thread), t)
    modifies store, store.threads.Values
    ensures store.Valid() && fresh(store.threads.Values - old(store.threads.Values))
    ensures err == PersistError(t, parent == old(ThreadOf(store.View(), thread).latest))
    ensures Stored(old(store.View()), old(store.logs), store.View(), store.logs, thread, parent,
                   if err.None? then [rec] else [], t)
  {
    if t.persist.LeaseGone? {
      return Some(LeaseLost);
    }
    ghost var view, logs := store.View(), store.logs;
    var snap := SnapOf(rec, t.id, parent, thread);
    RejectedCommitUnread(view, logs, snap, rec.arts, t.draw);
    err := store.CommitStep(snap, rec.arts, t.draw);
  }

  /** The same behind a lease. `lost` is what the heartbeat has told the context; together
      with the fence it decides exactly what the signal of the schedule stands for. */
  method PersistFenced(f: MemoryLease.Fenced, thread: string, parent: string, rec: Rec, t: Tick, lost: bool,
                       grant: LeaseSpec.Grant, now: nat)
    returns (err: Option<Error>)
    requires f.store.Valid() && f.lease.Valid() && thread != "" && grant.thread == thread
    requires Drawable(ThreadOf(f.store.View(), thread), t)
    requires t.persist.LeaseGone? <==> lost || !LeaseSpec.Holds(MemoryLease.LeaseOf(f.lease.View(), thread), grant, now)
    modifies f.store, f.store.threads.Values
    ensures f.store.Valid()
    ensures err == PersistError(t, parent == old(ThreadOf(f.store.View(), thread).latest))
    ensures Stored(old(f.store.View()), old(f.store.logs), f.store.View(), f.store.logs, thread, parent,
                   if err.None? then [rec] else [], t)
  {
    if lost {
      NothingStored(f.store.View(), f.store.logs, thread, parent, t);
      return Some(LeaseLost);
    }
    ghost var view, logs := f.store.View(), f.store.logs;
    err := f.CommitStepFenced(SnapOf(rec, t.id, parent, thread), rec.arts, grant, now, t.draw);
    FencedIsStored(view, logs, f.store.View(), f.store.logs, thread, parent, rec, t, err);
  }

  /** An accepted commit is one new snapshot, a refused one cannot be read. */
  lemma FencedIsStored(view: map<string, Thread>, logs: map<string, seq<Entry>>, view': map<string, Thread>,
                       logs': map<string, seq<Entry>>, thread: string, parent: string, rec: Rec, t: Tick,
                       err: Option<Error>)
    requires !HasId(ThreadOf(view, thread).history, t.id)
    requires var snap := SnapOf(rec, t.id, parent, thread);
      && (err.Some? ==> SameReads(view, view', logs, logs'))
      && (err.None? ==>
            && CommitError(ThreadOf(view, thread), snap).None? && view' == CommitView(view, snap, rec.arts, t.draw)
            && logs' == logs[thread := CommitLog(ThreadOf(view, thread), LogOf(logs, thread), snap, rec.arts)])
    ensures Stored(view, logs, view', logs', thread, parent, if err.None? then [rec] else [], t)
  {
  }

  method Settled(store: DurableMemory, thread: string, parent: string, node: string, rec: Rec, t: Tick,
                 events: seq<Event>, execs: seq<Exec>)
    returns (it: Iteration)
    requires store.Valid() && thread != "" && Drawable(ThreadOf(store.View(), thread), t)
    modifies store, store.threads.Values
    ensures store.Valid() && fresh(store.threads.Values - old(store.threads.Values))
    ensures it == Settle(node, rec, t, parent == old(ThreadOf(store.View(), thread).latest), events, execs)
    ensures Stored(old(store.View()), old(store.logs), store.View(), store.logs, thread, parent, it.out.recs, t)
  {
    var err := Persist(store, thread, parent, rec, t);
    if err.Some? {
      var failed := events + [Event(CheckpointError, node, rec.step, t.id)];
      return Iteration(RunOut([], [], failed, execs, rec.state, Stopped(err.value)), None);
    }
    var committed := events + [Event(Checkpoint, node, rec.step, t.id)];
    if rec.interrupt {
      committed := committed + [Event(EventKind.Interrupt, node, rec.step, t.id)];
      return Iteration(RunOut([rec], [t.id], committed, execs, rec.state, InterruptedAt(node, rec.value)), None);
    }
    return Iteration(RunOut([rec], [t.id], committed, execs, rec.state, Completed), Some(rec));
  }

  /** Runs a node; unless it pauses or fails, merges its update and routes. */
  method RunNode(g: Graph, node: string, step: int, input: NodeInput) returns (o: Outcome)
    requires node in g.nodes
    ensures o == Attempt(g, Cursor(node, input.state, step), input.resume, input.sessions)
  {
    var result := g.nodes[node](input);
    if result.Asked? {
      return Paused(Rec(node, input.state, step, true, result.value, Collect(result.regs)));
    }
    if result.Failed? {
      return Crashed(input.state, NodeFailed);
    }
    var state := Apply(input.state, result.upd, g.reducers);
    var next := Next(g, node, state);
    if next.Err? {
      return Crashed(state, next.error);
    }
    return Advanced(Rec(next.value, state, step + 1, false, Nil, Collect(result.regs)));
  }

  /** The rest of an iteration: events, and the commit unless the node failed. */
  method Conclude(store: DurableMemory, thread: string, c: Cursor, o: Outcome, parent: string, t: Tick,
                  execs: seq<Exec>) returns (it: Iteration)
    requires store.Valid() && thread != "" && Drawable(ThreadOf(store.View(), thread), t)
    modifies store, store.threads.Values
    ensures store.Valid() && fresh(store.threads.Values - old(store.threads.Values))
    ensures it == Concluded(c, o, parent == old(ThreadOf(store.View(), thread).latest), parent, t, execs)
    ensures Stored(old(store.View()), old(store.logs), store.View(), store.logs, thread, parent, it.out.recs, t)
  {
    var start := Event(NodeStart, c.node, c.step, parent);
    if t.after.LeaseGone? {
      return Iteration(RunOut([], [], [start], execs, c.state, Stopped(LeaseLost)), None);
    }
    if t.faulty {
      return Iteration(RunOut([], [], [start, Event(NodeError, c.node, c.step, "")], execs, c.state,
                              Stopped(NodeFailed)), None);
    }
    match o {
      case Paused(rec) =>
        it := Settled(store, thread, parent, c.node, rec, t, [start], execs);
      case Crashed(s, e) =>
        var ev := if e == NodeFailed then Event(NodeError, c.node, c.step, "")
          else Event(NodeEnd, c.node, c.step, parent);
        it := Iteration(RunOut([], [], [start, ev], execs, s, Stopped(e)), None);
      case Advanced(rec) =>
        var end, route := Event(NodeEnd, c.node, c.step, parent), Event(Route, c.node, rec.step, parent);
        it := Settled(store, thread, parent, c.node, rec, t, [start, end, route], execs);
    }
  }

  /** One iteration of the run loop. */
  method SuperStep(g: Graph, store: DurableMemory, thread: string, state: State, node: string, step: int,
                   resume: Value, parent: string, t: Tick)
    returns (it: Iteration)
    requires store.Valid() && thread != "" && Drawable(ThreadOf(store.View(), thread), t)
    modifies store, store.threads.Values
    ensures store.Valid() && fresh(store.threads.Values - old(store.threads.Values))
    ensures var before := old(ThreadOf(store.View(), thread));
      it == Iterate(g, parent == before.latest, SeenSessions(before, parent), Cursor(node, state, step), resume,
                    parent, t)
    ensures Stored(old(store.View()), old(store.logs), store.View(), store.logs, thread, parent, it.out.recs, t)
  {
    var refused := Gate(g, node, t);
    if refused.Some? {
      NothingStored(store.View(), store.logs, thread, parent, t);
      return Iteration(RunOut([], [], [], [], state, Stopped(refused.value)), None);
    }
    ghost var view := store.View();
    var sessions := ReadSessions(store, thread, parent);
    var input := NodeInput(state, resume, sessions);
    var outcome := RunNode(g, node, step, input);
    assert store.View() == view;
    it := Conclude(store, thread, Cursor(node, state, step), outcome, parent, t, [Exec(node, input)]);
  }

  // ------------------------------------------------------------------ the loop

  /** This log grew by exactly these records under these ids. */
  ghost predicate LogGrew(log: seq<Entry>, log': seq<Entry>, recs: seq<Rec>, ids: seq<string>) {
    && |ids| == |recs| && |log'| == |log| + |recs| && log <= log'
    && Recs(log') == Recs(log) + recs
    && forall k :: 0 <= k < |ids| ==> log'[|log| + k].snap.id == ids[k]
  }

  lemma LogGrewTwice(log: seq<Entry>, log1: seq<Entry>, log2: seq<Entry>, recs1: seq<Rec>, ids1: seq<string>,
                     recs2: seq<Rec>, ids2: seq<string>)
    requires LogGrew(log, log1, recs1, ids1) && LogGrew(log1, log2, recs2, ids2)
    ensures LogGrew(log, log2, recs1 + recs2, ids1 + ids2)
  {
    assert Recs(log2) == Recs(log) + (recs1 + recs2);
    forall k | 0 <= k < |ids1 + ids2| ensures log2[|log| + k].snap.id == (ids1 + ids2)[k] {
      assert k < |ids1| ==> log2[|log| + k] == log1[|log| + k];
    }
  }

  lemma LogGrewByOne(log: seq<Entry>, e: Entry, rec: Rec)
    requires RecOf(e) == rec
    ensures LogGrew(log, log + [e], [rec], [e.snap.id])
  {
    assert Recs(log + [e]) == Recs(log) + [RecOf(e)];
  }

  lemma LogGrewByNone(log: seq<Entry>)
    ensures LogGrew(log, log, [], [])
  {
    assert Recs(log) + [] == Recs(log);
  }

  /** No other thread has changed. */
  ghost predicate OnlyThread(view: map<string, Thread>, logs: map<string, seq<Entry>>,
                             view': map<string, Thread>, logs': map<string, seq<Entry>>, thread: string)
  {
    forall other :: other != thread ==>
      ThreadOf(view', other) == ThreadOf(view, other) && LogOf(logs', other) == LogOf(logs, other)
  }

  /** The thread's log grew by exactly these records, and other threads are untouched. */
  ghost predicate Grew(view: map<string, Thread>, logs: map<string, seq<Entry>>,
                       view': map<string, Thread>, logs': map<string, seq<Entry>>,
                       thread: string, recs: seq<Rec>, ids: seq<string>)
  {
    LogGrew(LogOf(logs, thread), LogOf(logs', thread), recs, ids) && OnlyThread(view, logs, view', logs', thread)
  }

  lemma StoredGrew(view: map<string, Thread>, logs: map<string, seq<Entry>>, view': map<string, Thread>,
                   logs': map<string, seq<Entry>>,
                   thread: string, parent: string, recs: seq<Rec>, ids: seq<string>, t: Tick)
    requires Stored(view, logs, view', logs', thread, parent, recs, t)
    requires ids == if recs == [] then [] else [t.id]
    ensures Grew(view, logs, view', logs', thread, recs, ids)
  {
    var log, log' := LogOf(logs, thread), LogOf(logs', thread);
    if recs == [] {
      LogGrewByNone(log);
    } else {
      var e := Entry(SnapOf(recs[0], t.id, parent, thread).(revision := ThreadOf(view, thread).revision + 1),
                     recs[0].arts);
      assert log' == log + [e] && recs == [recs[0]];
      LogGrewByOne(log, e, recs[0]);
    }
  }

  lemma GrewTwice(view: map<string, Thread>, logs: map<string, seq<Entry>>, view1: map<string, Thread>,
                  logs1: map<string, seq<Entry>>,
                  view2: map<string, Thread>, logs2: map<string, seq<Entry>>, thread: string,
                  recs1: seq<Rec>, ids1: seq<string>, recs2: seq<Rec>, ids2: seq<string>)
    requires Grew(view, logs, view1, logs1, thread, recs1, ids1)
             && Grew(view1, logs1, view2, logs2, thread, recs2, ids2)
    ensures Grew(view, logs, view2, logs2, thread, recs1 + recs2, ids1 + ids2)
  {
    LogGrewTwice(LogOf(logs, thread), LogOf(logs1, thread), LogOf(logs2, thread), recs1, ids1, recs2, ids2);
  }

  /** A run that starts at the tip sees the sessions of the whole log. */
  lemma TipIsSeen(t: Thread, log: seq<Entry>, thread: string)
    requires ThreadInv(t, log, thread)
    ensures SeenSessions(t, t.latest) == SessionsOf(Recs(log))
  {
    TipSessions(t, log, thread);
    if log == [] {
      assert Recs(log) == [];
    } else {
      assert Linked(log, thread, |log| - 1);
    }
  }

  /** Whatever an iteration did, the ids of the rest of the schedule are still unused. */
  lemma FreshAfterIteration(view: map<string, Thread>, logs: map<string, seq<Entry>>, view': map<string, Thread>,
                            logs': map<string, seq<Entry>>,
                            thread: string, parent: string, recs: seq<Rec>, env: seq<Tick>)
    requires ViewInv(view, logs) && env != [] && FreshEnv(ThreadOf(view, thread), env)
    requires Stored(view, logs, view', logs', thread, parent, recs, env[0])
    ensures FreshEnv(ThreadOf(view', thread), env[1..])
  {
    ThreadOfInv(view, logs, thread);
    if recs != [] {
      FreshAfterCommit(ThreadOf(view, thread), LogOf(logs, thread), SnapOf(recs[0], env[0].id, parent, thread),
                       recs[0].arts, env);
    }
  }

  /** After a commit the run is at the tip again, and sees what it has just saved. */
  lemma CommitContinues(view: map<string, Thread>, logs: map<string, seq<Entry>>, view': map<string, Thread>,
                        logs': map<string, seq<Entry>>,
                        thread: string, parent: string, rec: Rec, t: Tick)
    requires ViewInv(view, logs) && ViewInv(view', logs') && Stored(view, logs, view', logs', thread, parent, [rec], t)
    ensures var before, after := ThreadOf(view, thread), ThreadOf(view', thread);
      && after.latest == t.id
      && SeenSessions(after, t.id) == SeenSessions(before, parent) + SavedBy(rec.arts)
  {
    var before, after := ThreadOf(view, thread), ThreadOf(view', thread);
    var log, log' := LogOf(logs, thread), LogOf(logs', thread);
    ThreadOfInv(view, logs, thread);
    ThreadOfInv(view', logs', thread);
    TipIsSeen(before, log, thread);
    TipIsSeen(after, log', thread);
    StoredGrew(view, logs, view', logs', thread, parent, [rec], [t.id], t);
    SessionsSnoc(Recs(log), rec);
  }

  lemma JoinAssociates(a: RunOut, b: RunOut, c: RunOut)
    ensures Join(Join(a, b), c) == Join(a, Join(b, c))
  {
  }

  lemma JoinNothing(out: RunOut, stop: Stop)
    ensures Join(out, RunOut([], [], [], [], out.state, stop)) == out.(stop := stop)
    ensures Join(RunOut([], [], [], [], out.state, stop), out) == out
  {
  }

  /** What the loop still has to do, given the thread it works on. */
  ghost function Remaining(g: Graph, cap: int, t: Thread, c: Cursor, resume: Value, parent: string,
                           env: seq<Tick>): RunOut {
    RunLoop(g, cap, parent == t.latest, SeenSessions(t, parent), c, resume, parent, env)
  }

  /** One iteration accounts for its share of what the loop still had to do. */
  lemma IterationAccounts(view: map<string, Thread>, logs: map<string, seq<Entry>>, view': map<string, Thread>,
                          logs': map<string, seq<Entry>>,
                          thread: string, g: Graph, cap: int, c: Cursor, resume: Value, parent: string, env: seq<Tick>,
                          it: Iteration)
    requires ViewInv(view, logs) && ViewInv(view', logs') && !AtEnd(c.node) && env != []
    requires var t := ThreadOf(view, thread);
      it == Iterate(g, parent == t.latest, SeenSessions(t, parent), c, resume, parent, env[0])
    requires Stored(view, logs, view', logs', thread, parent, it.out.recs, env[0])
    ensures Grew(view, logs, view', logs', thread, it.out.recs, it.out.ids)
    ensures it.next.Some? ==> it.out.state == it.next.value.state && it.out.stop == Completed
    ensures var todo := Remaining(g, cap, ThreadOf(view, thread), c, resume, parent, env);
      var after := ThreadOf(view', thread);
      match it.next
      case None => todo == it.out
      case Some(rec) =>
        if Capped(cap, rec.step) then todo == it.out.(stop := Stopped(MaxStepsExceeded))
        else todo == Join(it.out, Remaining(g, cap, after, Cursor(rec.node, rec.state, rec.step), Nil, env[0].id,
                                            env[1..]))
  {
    var t := ThreadOf(view, thread);
    IterationReports(g, parent == t.latest, SeenSessions(t, parent), c, resume, parent, env[0]);
    Unrolled(g, cap, parent == t.latest, SeenSessions(t, parent), c, resume, parent, env);
    StoredGrew(view, logs, view', logs', thread, parent, it.out.recs, it.out.ids, env[0]);
    if it.next.Some? {
      CommitContinues(view, logs, view', logs', thread, parent, it.next.value, env[0]);
    }
  }

  /** One iteration of the run loop with the step cap tested at its end, added to what the
      run has done so far. The ghosts are the store before the run and everything the run
      will have done. */
  method Iterated(g: Graph, store: DurableMemory, thread: string, cap: int, state: State, node: string, step: int,
                  resume: Value, parent: string,
                  env: seq<Tick>, soFar: RunOut, ghost later: seq<Tick>, ghost view0: map<string, Thread>,
                  ghost logs0: map<string, seq<Entry>>, ghost whole: RunOut)
    returns (out: RunOut, next: Option<Rec>)
    requires store.Valid() && thread != "" && env != [] && !AtEnd(node)
             && FreshEnv(ThreadOf(store.View(), thread), env + later)
    requires Grew(view0, logs0, store.View(), store.logs, thread, soFar.recs, soFar.ids)
    requires whole == Join(soFar, Remaining(g, cap, ThreadOf(store.View(), thread), Cursor(node, state, step), resume,
                                            parent, env))
    modifies store, store.threads.Values
    ensures store.Valid() && fresh(store.threads.Values - old(store.threads.Values))
    ensures Grew(view0, logs0, store.View(), store.logs, thread, out.recs, out.ids)
            && FreshEnv(ThreadOf(store.View(), thread), env[1..] + later)
    ensures next.None? ==> out == whole
    ensures next.Some? ==>
      var rec := next.value;
      && out.state == rec.state && out.stop == Completed
      && whole == Join(out, Remaining(g, cap, ThreadOf(store.View(), thread), Cursor(rec.node, rec.state, rec.step),
                                      Nil, env[0].id, env[1..]))
  {
    ghost var view, logs, c := store.View(), store.logs, Cursor(node, state, step);
    assert (env + later)[0] == env[0] && (env + later)[1..] == env[1..] + later;
    var it := SuperStep(g, store, thread, state, node, step, resume, parent, env[0]);
    FreshAfterIteration(view, logs, store.View(), store.logs, thread, parent, it.out.recs, env + later);
    IterationAccounts(view, logs, store.View(), store.logs, thread, g, cap, c, resume, parent, env, it);
    GrewTwice(view0, logs0, view, logs, store.View(), store.logs, thread, soFar.recs, soFar.ids, it.out.recs,
              it.out.ids);
    out, next := Join(soFar, it.out), it.next;
    if it.next.Some? {
      var rec := it.next.value;
      if Capped(cap, rec.step) {
        return out.(stop := Stopped(MaxStepsExceeded)), None;
      }
      JoinAssociates(soFar, it.out, Remaining(g, cap, ThreadOf(store.View(), thread),
                                              Cursor(rec.node, rec.state, rec.step), Nil, env[0].id, env[1..]));
    }
  }

  /** The run loop on a real store: it returns what the run function says, and the thread's
      log grows by exactly the records of the run. `rest` is the part of the schedule that
      is still to come, before the schedules of `later` runs. */
  method Run(g: Graph, store: DurableMemory, thread: string, cap: int, from: Cursor, value: Value, parentID: string,
             env: seq<Tick>,
             ghost later: seq<Tick>)
    returns (out: RunOut, rest: seq<Tick>)
    requires store.Valid() && thread != "" && FreshEnv(ThreadOf(store.View(), thread), env + later)
    modifies store, store.threads.Values
    ensures store.Valid() && fresh(store.threads.Values - old(store.threads.Values))
    ensures out == Remaining(g, cap, old(ThreadOf(store.View(), thread)), from, value, parentID, env)
    ensures Grew(old(store.View()), old(store.logs), store.View(), store.logs, thread, out.recs, out.ids)
    ensures FreshEnv(ThreadOf(store.View(), thread), rest + later)
  {
    ghost var view0, logs0 := store.View(), store.logs;
    ghost var whole := Remaining(g, cap, ThreadOf(view0, thread), from, value, parentID, env);
    ghost var view, logs := view0, logs0;
    var state, node, step, parent, resume := from.state, from.node, from.step, parentID, value;
    rest := env;
    out := RunOut([], [], [], [], state, Completed);
    JoinNothing(whole, Completed);
    while node != "" && node != END
      invariant store.Valid() && fresh(store.threads.Values - old(store.threads.Values))
      invariant view == store.View() && logs == store.logs
      invariant FreshEnv(ThreadOf(view, thread), rest + later)
      invariant Grew(view0, logs0, view, logs, thread, out.recs, out.ids)
      invariant out.state == state && out.stop == Completed
      invariant whole == Join(out, Remaining(g, cap, ThreadOf(view, thread), Cursor(node, state, step), resume, parent,
                                             rest))
      decreases |rest|
    {
      if rest == [] {
        JoinNothing(out, Stopped(Cancelled));
        out := out.(stop := Stopped(Cancelled));
        assert out == whole;
        break;
      }
      var next;
      out, next := Iterated(g, store, thread, cap, state, node, step, resume, parent, rest, out, later, view0, logs0,
                            whole);
      assert fresh(store.threads.Values - old(store.threads.Values));
      view, logs := store.View(), store.logs;
      var id := rest[0].id;
      rest := rest[1..];
      if next.None? {
        break;
      }
      var rec := next.value;
      state, node, step, parent, resume := rec.state, rec.node, rec.step, id, Nil;
    }
    if AtEnd(node) {
      JoinNothing(out, Completed);
    }
  }
}
