/** Graphs whose runs are bounded: a cursor invariant that every super-step keeps, with the
    step counter below a bound until the end, decides how every run and history goes. */
module Bounded {
  import opened Common
  import opened Values
  import opened Artifacts
  import opened EngineSpec
  import opened History
  import opened Transparency
  import opened HistoryFacts
  import opened RunFacts

  type Invariant = Cursor -> bool

  /** From a cursor in the invariant the node exists, the bound is not reached, success keeps
      the invariant, and the only failure is the node's own. */
  ghost predicate Guided(g: Graph, inv: Invariant, bound: int, c: Cursor, resume: Value,
                         sessions: map<string, Payload>) {
    && c.node in g.nodes && c.step < bound
    && match Attempt(g, c, resume, sessions)
       case Advanced(rec) => inv(Cursor(rec.node, rec.state, rec.step))
       case Paused(_) => true
       case Crashed(_, e) => e == NodeFailed
  }

  ghost predicate Guides(g: Graph, inv: Invariant, bound: int) {
    forall c: Cursor, resume: Value, sessions: map<string, Payload> ::
      inv(c) && !AtEnd(c.node) ==> Guided(g, inv, bound, c, resume, sessions)
  }

  /** Resumes that only deliver a value: no state patch, no jump. */
  predicate Bare(cmd: Command) {
    cmd.update == map[] && cmd.goto == ""
  }

  ghost predicate AllBare(cmds: seq<Command>) {
    forall i :: 0 <= i < |cmds| ==> Bare(cmds[i])
  }

  lemma BareEnters(g: Graph, origin: State, recs: seq<Rec>, cmd: Command)
    requires Bare(cmd)
    ensures Enter(g, origin, recs, cmd) == Tip(g, origin, recs)
  {
    MergedNothing(Tip(g, origin, recs).state, g.reducers);
  }

  /** Every history under bare commands stays inside the invariant. */
  lemma {:induction false} HistoriesAreGuided(g: Graph, inv: Invariant, bound: int, origin: State, recs: seq<Rec>,
                                              cmds: seq<Command>)
    requires Guides(g, inv, bound) && inv(Cursor(g.entry, origin, 0))
    requires Lawful(g, origin, recs, cmds) && AllBare(cmds)
    ensures inv(Tip(g, origin, recs))
    decreases |recs|
  {
    if recs != [] {
      var n := |recs| - 1;
      LawfulPrefix(g, origin, recs, cmds, n);
      HistoriesAreGuided(g, inv, bound, origin, recs[..n], cmds[..n]);
      assert LawfulAt(g, origin, recs, cmds, n);
      var tip, resume, sessions := Tip(g, origin, recs[..n]), Delivered(recs[..n], cmds[n]), SessionsOf(recs[..n]);
      BareEnters(g, origin, recs[..n], cmds[n]);
      assert Guided(g, inv, bound, tip, resume, sessions);
      AttemptPossible(g, tip, resume, sessions);
    }
  }

  lemma {:induction false} ErasedAndInterrupts(recs: seq<Rec>)
    ensures |Erase(recs)| + Interrupts(recs) == |recs|
  {
    if recs != [] {
      ErasedAndInterrupts(recs[..|recs| - 1]);
    }
  }

  /** The committed super-steps of any history are its step counter, and within the bound. */
  lemma SuperStepsAreBounded(g: Graph, inv: Invariant, bound: int, origin: State, recs: seq<Rec>, cmds: seq<Command>)
    requires Guides(g, inv, bound) && inv(Cursor(g.entry, origin, 0)) && bound >= 0
    requires Lawful(g, origin, recs, cmds) && AllBare(cmds)
    ensures |Erase(recs)| == Tip(g, origin, recs).step <= bound
    decreases |recs|
  {
    StepsPlusInterrupts(g, origin, recs, cmds);
    ErasedAndInterrupts(recs);
    if recs != [] {
      var n := |recs| - 1;
      LawfulPrefix(g, origin, recs, cmds, n);
      HistoriesAreGuided(g, inv, bound, origin, recs[..n], cmds[..n]);
      assert LawfulAt(g, origin, recs, cmds, n);
      var tip, resume, sessions := Tip(g, origin, recs[..n]), Delivered(recs[..n], cmds[n]), SessionsOf(recs[..n]);
      BareEnters(g, origin, recs[..n], cmds[n]);
      assert Guided(g, inv, bound, tip, resume, sessions);
      AttemptPossible(g, tip, resume, sessions);
    }
  }

  /** The ways a bounded run can stop by itself. */
  predicate Natural(stop: Stop) {
    stop.Completed? || stop.InterruptedAt? || stop == Stopped(NodeFailed)
  }

  predicate OutOfBounds(stop: Stop) {
    stop == Stopped(MaxStepsExceeded) || stop == Stopped(UnknownNode) || stop == Stopped(UnknownRoute)
  }

  lemma GuidedIteration(g: Graph, inv: Invariant, bound: int, fits: bool, sessions: map<string, Payload>, c: Cursor,
                        resume: Value, parent: string, t: Tick)
    requires Guided(g, inv, bound, c, resume, sessions)
    ensures var it := Iterate(g, fits, sessions, c, resume, parent, t);
      match it.next
      case Some(rec) => inv(Cursor(rec.node, rec.state, rec.step)) && rec.step == c.step + 1
      case None => !OutOfBounds(it.out.stop) && (fits && Undisturbed([t]) ==> Natural(it.out.stop))
  {
    AttemptPossible(g, c, resume, sessions);
    ConcludedOutcome(c, Attempt(g, c, resume, sessions), fits, parent, t,
                     [Exec(c.node, NodeInput(c.state, resume, sessions))]);
    assert Undisturbed([t]) ==> [t][0] == t;
  }

  /** A bounded run never trips a cap above its bound and never meets an unknown node or
      route; left alone it stops by itself within the super-steps that remain. */
  lemma {:induction false} GuidedRunsStop(g: Graph, inv: Invariant, bound: int, cap: int, fits: bool,
                                          sessions: map<string, Payload>, c: Cursor, resume: Value, parent: string,
                                          env: seq<Tick>)
    requires Guides(g, inv, bound) && inv(c) && cap > bound
    ensures var stop := RunLoop(g, cap, fits, sessions, c, resume, parent, env).stop;
      !OutOfBounds(stop) && (fits && Undisturbed(env) && |env| >= bound - c.step ==> Natural(stop))
    decreases |env|
  {
    if !AtEnd(c.node) {
      assert Guided(g, inv, bound, c, resume, sessions);
      if env != [] {
        GuidedIteration(g, inv, bound, fits, sessions, c, resume, parent, env[0]);
        Unrolled(g, cap, fits, sessions, c, resume, parent, env);
        assert Undisturbed(env) ==> Undisturbed([env[0]]);
        var it := Iterate(g, fits, sessions, c, resume, parent, env[0]);
        if it.next.Some? {
          var rec := it.next.value;
          GuidedRunsStop(g, inv, bound, cap, fits, sessions + SavedBy(rec.arts), Cursor(rec.node, rec.state, rec.step),
                         Nil, env[0].id, env[1..]);
        }
      }
    }
  }

  /** From every cursor in the invariant the node succeeds, and only the bound ends a run. */
  ghost predicate Exhausts(g: Graph, inv: Invariant, bound: int) {
    forall c: Cursor, resume: Value, sessions: map<string, Payload> ::
      inv(c) && !AtEnd(c.node) ==> Pushes(g, inv, bound, c, resume, sessions)
  }

  ghost predicate Pushes(g: Graph, inv: Invariant, bound: int, c: Cursor, resume: Value,
                         sessions: map<string, Payload>) {
    && c.node in g.nodes && c.step < bound
    && var o := Attempt(g, c, resume, sessions);
    o.Advanced? && inv(Cursor(o.rec.node, o.rec.state, o.rec.step)) && (AtEnd(o.rec.node) ==> o.rec.step == bound)
  }

  /** Then every undisturbed run completes after exactly the super-steps up to the bound. */
  lemma {:induction false} RunsReachTheBound(g: Graph, inv: Invariant, bound: int, cap: int,
                                             sessions: map<string, Payload>, c: Cursor, resume: Value, parent: string,
                                             env: seq<Tick>)
    requires Exhausts(g, inv, bound) && inv(c) && (AtEnd(c.node) ==> c.step == bound) && cap > bound
    requires Undisturbed(env) && |env| >= bound - c.step
    ensures var out := RunLoop(g, cap, true, sessions, c, resume, parent, env);
      out.stop == Completed && c.step + |out.recs| == bound
    decreases |env|
  {
    if !AtEnd(c.node) {
      assert Pushes(g, inv, bound, c, resume, sessions);
      assert Undisturbed([env[0]]);
      CalmAdvance(g, sessions, c, resume, parent, env[0]);
      Unrolled(g, cap, true, sessions, c, resume, parent, env);
      var rec := Attempt(g, c, resume, sessions).rec;
      RunsReachTheBound(g, inv, bound, cap, sessions + SavedBy(rec.arts), Cursor(rec.node, rec.state, rec.step), Nil,
                        env[0].id, env[1..]);
    }
  }
}
