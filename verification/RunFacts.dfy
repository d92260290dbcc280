/** Facts about a single run of the loop: the step cap, the one-shot resume value, and the
    event stream (graph/builder.go). */
module RunFacts {
  import opened Common
  import opened Values
  import opened Artifacts
  import opened EngineSpec

  /** Counting facts about one iteration: it commits at most one record and starts at most
      one node; it continues exactly after a committed super-step. */
  ghost predicate Counts(c: Cursor, it: Iteration) {
    && (it.next.Some? ==> it.out.recs == [it.next.value] && it.next.value.step == c.step + 1)
    && (it.next.Some? ==> it.out.state == it.next.value.state && it.out.stop == Completed)
    && (it.next.None? ==> it.out.recs == [] || (|it.out.recs| == 1 && it.out.stop.InterruptedAt?))
    && (it.next.None? && it.out.stop.InterruptedAt? ==> |it.out.recs| == 1)
    && (it.next.None? ==> !it.out.stop.Completed? && it.out.stop != Stopped(MaxStepsExceeded))
    && |it.out.execs| <= 1
    && (it.next.Some? ==> |it.out.execs| == 1)
  }

  lemma ConcludedCounts(c: Cursor, o: Outcome, fits: bool, parent: string, t: Tick, execs: seq<Exec>)
    requires Possible(c, o) && |execs| == 1
    ensures Counts(c, Concluded(c, o, fits, parent, t, execs))
    ensures Concluded(c, o, fits, parent, t, execs).out.execs == execs
  {
  }

  lemma IterationAdvances(g: Graph, fits: bool, sessions: map<string, Payload>, c: Cursor, resume: Value,
                          parent: string, t: Tick)
    ensures var it := Iterate(g, fits, sessions, c, resume, parent, t);
      Counts(c, it) && (it.out.execs != [] ==> it.out.execs[0] == Exec(c.node, NodeInput(c.state, resume, sessions)))
  {
    if Gate(g, c.node, t).None? {
      AttemptPossible(g, c, resume, sessions);
      ConcludedCounts(c, Attempt(g, c, resume, sessions), fits, parent, t,
                      [Exec(c.node, NodeInput(c.state, resume, sessions))]);
    }
  }

  /** How an iteration stops, given how its node came out. */
  lemma ConcludedOutcome(c: Cursor, o: Outcome, fits: bool, parent: string, t: Tick, execs: seq<Exec>)
    requires Possible(c, o)
    ensures var it := Concluded(c, o, fits, parent, t, execs);
      && (it.next.Some? ==> o == Advanced(it.next.value))
      && (it.out.stop.InterruptedAt? ==>
            it.next.None? && o.Paused? && it.out.recs == [o.rec]
              && it.out.stop == InterruptedAt(o.rec.node, o.rec.value))
      && (it.next.None? && !it.out.stop.InterruptedAt? ==>
            it.out.recs == [] && it.out.stop.Stopped? &&
            (it.out.stop.error in {LeaseLost, NodeFailed, CheckpointConflict}
             || (o.Crashed? && it.out.stop.error == o.error)))
      && (fits && Undisturbed([t]) && it.next.None? && !it.out.stop.InterruptedAt? ==>
           o.Crashed? && it.out.stop == Stopped(o.error))
  {
    assert Undisturbed([t]) ==> [t][0] == t;
  }

  /** A node that succeeds in an undisturbed iteration is committed. */
  lemma CalmAdvance(g: Graph, sessions: map<string, Payload>, c: Cursor, resume: Value, parent: string, t: Tick)
    requires c.node in g.nodes && Undisturbed([t]) && Attempt(g, c, resume, sessions).Advanced?
    ensures var it, rec := Iterate(g, true, sessions, c, resume, parent, t), Attempt(g, c, resume, sessions).rec;
      it.next == Some(rec) && it.out.recs == [rec] && rec.step == c.step + 1
  {
    assert [t][0] == t;
    AttemptPossible(g, c, resume, sessions);
  }

  /** One unrolling of the loop. */
  lemma Unrolled(g: Graph, cap: int, fits: bool, sessions: map<string, Payload>, c: Cursor, resume: Value,
                 parent: string, env: seq<Tick>)
    requires !AtEnd(c.node) && env != []
    ensures var it := Iterate(g, fits, sessions, c, resume, parent, env[0]);
      var todo := RunLoop(g, cap, fits, sessions, c, resume, parent, env);
      && Counts(c, it)
      && match it.next
         case None => todo == it.out
         case Some(rec) =>
           if Capped(cap, rec.step) then todo == it.out.(stop := Stopped(MaxStepsExceeded))
           else todo == Join(it.out, RunLoop(g, cap, fits, sessions + SavedBy(rec.arts),
                                             Cursor(rec.node, rec.state, rec.step), Nil, env[0].id, env[1..]))
  {
    IterationAdvances(g, fits, sessions, c, resume, parent, env[0]);
  }

  /** The super-steps a run committed: its records but a final interrupt. */
  function Advances(out: RunOut): int {
    |out.recs| - if out.stop.InterruptedAt? then 1 else 0
  }

  /** How many super-steps a run starting at this step may commit under a cap: the cap is
      tested after the commit, so even a run at or past it commits one. */
  function Allowance(cap: int, step: int): (n: int)
    ensures n >= 1
  {
    if cap - step >= 1 then cap - step else 1
  }

  /** A cap changes nothing about a run that commits fewer super-steps than its allowance,
      and cuts any other run off after exactly that many, with the step-limit error even if
      the graph had just reached its end. */
  lemma {:induction false} CapCutsAtAllowance(g: Graph, cap: int, fits: bool, sessions: map<string, Payload>,
                                              c: Cursor, resume: Value, parent: string, env: seq<Tick>)
    requires cap > 0
    ensures var free := RunLoop(g, 0, fits, sessions, c, resume, parent, env);
      var capped := RunLoop(g, cap, fits, sessions, c, resume, parent, env);
      var n := Allowance(cap, c.step);
      && free.stop != Stopped(MaxStepsExceeded) && 0 <= Advances(free)
      && if Advances(free) < n then capped == free
         else capped.recs == free.recs[..n] && capped.stop == Stopped(MaxStepsExceeded)
    decreases |env|
  {
    if !AtEnd(c.node) && env != [] {
      IterationAdvances(g, fits, sessions, c, resume, parent, env[0]);
      var it := Iterate(g, fits, sessions, c, resume, parent, env[0]);
      if it.next.Some? {
        var rec := it.next.value;
        CapCutsAtAllowance(g, cap, fits, sessions + SavedBy(rec.arts), Cursor(rec.node, rec.state, rec.step), Nil,
                           env[0].id, env[1..]);
      }
    }
  }

  /** These executions begin with this one, and no later one received a resume value. */
  ghost predicate ResumedOnce(execs: seq<Exec>, first: Exec) {
    && (forall k :: 1 <= k < |execs| ==> execs[k].input.resume == Nil)
    && (execs != [] ==> execs[0] == first)
  }

  lemma ResumedOnceThen(one: seq<Exec>, rest: seq<Exec>, first: Exec, second: Exec)
    requires |one| == 1 && ResumedOnce(one, first) && ResumedOnce(rest, second) && second.input.resume == Nil
    ensures ResumedOnce(one + rest, first)
  {
  }

  /** The resume value is one-shot: only the first node of a run can see it. */
  lemma {:induction false} OnlyFirstNodeIsResumed(g: Graph, cap: int, fits: bool, sessions: map<string, Payload>,
                                                  c: Cursor, resume: Value, parent: string, env: seq<Tick>)
    ensures ResumedOnce(RunLoop(g, cap, fits, sessions, c, resume, parent, env).execs,
                        Exec(c.node, NodeInput(c.state, resume, sessions)))
    decreases |env|
  {
    if !AtEnd(c.node) && env != [] {
      IterationAdvances(g, fits, sessions, c, resume, parent, env[0]);
      var it := Iterate(g, fits, sessions, c, resume, parent, env[0]);
      if it.next.Some? && !Capped(cap, it.next.value.step) {
        var rec := it.next.value;
        var c', sessions' := Cursor(rec.node, rec.state, rec.step), sessions + SavedBy(rec.arts);
        OnlyFirstNodeIsResumed(g, cap, fits, sessions', c', Nil, env[0].id, env[1..]);
        ResumedOnceThen(it.out.execs, RunLoop(g, cap, fits, sessions', c', Nil, env[0].id, env[1..]).execs,
                        Exec(c.node, NodeInput(c.state, resume, sessions)),
                        Exec(c'.node, NodeInput(c'.state, Nil, sessions')));
      }
    }
  }

  /** The outcome of a run agrees with the last record it committed: an interrupt names it,
      completion means that it is at the end. */
  ghost predicate EndsAtTip(c: Cursor, out: RunOut) {
    && (out.stop.InterruptedAt? ==> out.recs != [] && var last := out.recs[|out.recs| - 1];
           last.interrupt && out.stop == InterruptedAt(last.node, last.value) && out.state == last.state)
    && (out.stop.Completed? ==>
          if out.recs == [] then AtEnd(c.node) && out.state == c.state
          else var last := out.recs[|out.recs| - 1]; AtEnd(last.node) && out.state == last.state && !last.interrupt)
  }

  lemma EndsAtTipJoin(c: Cursor, rec: Rec, one: RunOut, rest: RunOut)
    requires one.recs == [rec] && !rec.interrupt && EndsAtTip(Cursor(rec.node, rec.state, rec.step), rest)
    ensures EndsAtTip(c, Join(one, rest))
  {
  }

  lemma {:induction false} RunsEndAtTheirTip(g: Graph, cap: int, fits: bool, sessions: map<string, Payload>, c: Cursor,
                                             resume: Value, parent: string, env: seq<Tick>)
    ensures EndsAtTip(c, RunLoop(g, cap, fits, sessions, c, resume, parent, env))
    decreases |env|
  {
    if !AtEnd(c.node) && env != [] {
      Unrolled(g, cap, fits, sessions, c, resume, parent, env);
      var it := Iterate(g, fits, sessions, c, resume, parent, env[0]);
      if Gate(g, c.node, env[0]).None? {
        AttemptPossible(g, c, resume, sessions);
        ConcludedOutcome(c, Attempt(g, c, resume, sessions), fits, parent, env[0],
                         [Exec(c.node, NodeInput(c.state, resume, sessions))]);
        if it.next.Some? && !Capped(cap, it.next.value.step) {
          var rec := it.next.value;
          var c', sessions' := Cursor(rec.node, rec.state, rec.step), sessions + SavedBy(rec.arts);
          RunsEndAtTheirTip(g, cap, fits, sessions', c', Nil, env[0].id, env[1..]);
          EndsAtTipJoin(c, rec, it.out, RunLoop(g, cap, fits, sessions', c', Nil, env[0].id, env[1..]));
        }
      }
    }
  }

  /** A run whose parent is not the store's latest commits nothing and cannot succeed. */
  lemma MisfitsFail(g: Graph, cap: int, sessions: map<string, Payload>, c: Cursor, resume: Value, parent: string,
                    env: seq<Tick>)
    requires !AtEnd(c.node)
    ensures var out := RunLoop(g, cap, false, sessions, c, resume, parent, env);
      out.recs == [] && out.ids == [] && out.stop.Stopped?
  {
    if env != [] {
      Unrolled(g, cap, false, sessions, c, resume, parent, env);
      if Gate(g, c.node, env[0]).None? {
        AttemptPossible(g, c, resume, sessions);
      }
    }
  }

  // ------------------------------------------------------------------- events

  function CheckpointIds(events: seq<Event>): seq<string> {
    if events == [] then []
    else (if events[0].kind.Checkpoint? then [events[0].id] else []) + CheckpointIds(events[1..])
  }

  lemma {:induction false} CheckpointIdsConcat(a: seq<Event>, b: seq<Event>)
    ensures CheckpointIds(a + b) == CheckpointIds(a) + CheckpointIds(b)
  {
    if a == [] {
      assert a + b == b;
    } else {
      assert (a + b)[1..] == a[1..] + b;
      CheckpointIdsConcat(a[1..], b);
    }
  }

  /** Only the k-th of these events, if any, is a checkpoint event. */
  lemma {:induction false} OnlyCheckpoint(events: seq<Event>, k: nat)
    requires forall j :: 0 <= j < |events| && j != k ==> !events[j].kind.Checkpoint?
    ensures CheckpointIds(events) == if k < |events| && events[k].kind.Checkpoint? then [events[k].id] else []
  {
    if events != [] {
      OnlyCheckpoint(events[1..], if k > 0 then k - 1 else |events|);
    }
  }

  /** A finished super-step: start, end, route, checkpoint, all of one node, the first
      three naming the parent checkpoint and the last the new one. */
  predicate IsBlock(b: seq<Event>, parent: string) {
    && |b| == 4
    && b[0].kind == NodeStart && b[1].kind == NodeEnd && b[2].kind == Route && b[3].kind == Checkpoint
    && b[0].node == b[1].node == b[2].node == b[3].node
    && b[0].id == b[1].id == b[2].id == parent
    && b[1].step == b[0].step && b[2].step == b[3].step == b[0].step + 1
  }

  /** The ways a run can end inside a super-step: before the node returned, with a failure
      of the node, of routing or of a commit, or with an interrupt. */
  predicate IsTail(b: seq<Event>, parent: string) {
    b == [] ||
    (b[0].kind == NodeStart && b[0].id == parent &&
     (|| |b| == 1
      || (|b| == 2 && b[1].node == b[0].node
          && (b[1].kind == NodeError || b[1].kind == NodeEnd || b[1].kind == CheckpointError))
      || (|b| == 3 && b[1].node == b[2].node == b[0].node && b[1].kind == Checkpoint && b[2].kind == Interrupt
          && b[1].id == b[2].id)
      || (|b| == 4 && b[1].node == b[2].node == b[3].node == b[0].node
          && b[1].kind == NodeEnd && b[2].kind == Route && b[3].kind == CheckpointError)))
  }

  /** Blocks, each starting from the checkpoint the one before it wrote, then a tail. */
  predicate InBlocks(events: seq<Event>, parent: string)
    decreases |events|
  {
    IsTail(events, parent) || (|events| >= 4 && IsBlock(events[..4], parent) && InBlocks(events[4..], events[3].id))
  }

  ghost predicate Reports(it: Iteration, parent: string, t: Tick) {
    && (if it.next.Some? then IsBlock(it.out.events, parent) else IsTail(it.out.events, parent))
    && |it.out.ids| == |it.out.recs|
    && it.out.ids == (if it.next.Some? || it.out.stop.InterruptedAt? then [t.id] else [])
    && (it.next.Some? ==> it.out.events[3].id == t.id)
    && (it.next.None? && it.out.stop.InterruptedAt? ==> |it.out.events| == 3 && it.out.events[1].id == t.id)
    && (it.next.None? && !it.out.stop.InterruptedAt? ==> |it.out.events| != 3)
  }

  lemma ConcludedReports(c: Cursor, o: Outcome, fits: bool, parent: string, t: Tick, execs: seq<Exec>)
    requires Possible(c, o)
    ensures Reports(Concluded(c, o, fits, parent, t, execs), parent, t)
  {
  }

  lemma IterationReports(g: Graph, fits: bool, sessions: map<string, Payload>, c: Cursor, resume: Value,
                         parent: string, t: Tick)
    ensures Reports(Iterate(g, fits, sessions, c, resume, parent, t), parent, t)
  {
    if Gate(g, c.node, t).None? {
      AttemptPossible(g, c, resume, sessions);
      ConcludedReports(c, Attempt(g, c, resume, sessions), fits, parent, t,
                       [Exec(c.node, NodeInput(c.state, resume, sessions))]);
    }
  }

  lemma ReportedIds(it: Iteration, parent: string, t: Tick)
    requires Reports(it, parent, t)
    ensures CheckpointIds(it.out.events) == it.out.ids
  {
    OnlyCheckpoint(it.out.events, if it.next.Some? then 3 else 1);
  }

  lemma IterationEvents(g: Graph, fits: bool, sessions: map<string, Payload>, c: Cursor, resume: Value, parent: string,
                        t: Tick)
    ensures var it := Iterate(g, fits, sessions, c, resume, parent, t); CheckpointIds(it.out.events) == it.out.ids
  {
    IterationReports(g, fits, sessions, c, resume, parent, t);
    ReportedIds(Iterate(g, fits, sessions, c, resume, parent, t), parent, t);
  }

  /** Checkpoint events and committed ids agree, one per record, inside well-formed blocks. */
  ghost predicate Mirrors(out: RunOut, parent: string, env: seq<Tick>) {
    && CheckpointIds(out.events) == out.ids
    && |out.ids| == |out.recs| <= |env|
    && (forall k :: 0 <= k < |out.ids| ==> out.ids[k] == env[k].id)
    && InBlocks(out.events, parent)
  }

  lemma BlockThenRest(out: RunOut, rest: RunOut, parent: string, env: seq<Tick>)
    requires env != [] && IsBlock(out.events, parent) && out.events[3].id == env[0].id
    requires CheckpointIds(out.events) == out.ids == [env[0].id] && |out.recs| == 1
    requires Mirrors(rest, env[0].id, env[1..])
    ensures Mirrors(Join(out, rest), parent, env)
  {
    var all := out.events + rest.events;
    assert all[..4] == out.events && all[4..] == rest.events;
    CheckpointIdsConcat(out.events, rest.events);
  }

  /** The event stream mirrors storage: the checkpoint events carry exactly the ids the run
      committed, in order, one per record, inside well-formed blocks. */
  lemma {:induction false} EventsMirrorStorage(g: Graph, cap: int, fits: bool, sessions: map<string, Payload>,
                                               c: Cursor, resume: Value, parent: string, env: seq<Tick>)
    ensures Mirrors(RunLoop(g, cap, fits, sessions, c, resume, parent, env), parent, env)
    decreases |env|
  {
    if !AtEnd(c.node) && env != [] {
      IterationReports(g, fits, sessions, c, resume, parent, env[0]);
      IterationEvents(g, fits, sessions, c, resume, parent, env[0]);
      var it := Iterate(g, fits, sessions, c, resume, parent, env[0]);
      if it.next.Some? {
        var rec := it.next.value;
        IterationAdvances(g, fits, sessions, c, resume, parent, env[0]);
        if Capped(cap, rec.step) {
          assert it.out.events[..4] == it.out.events && it.out.events[4..] == [];
        } else {
          var c', sessions' := Cursor(rec.node, rec.state, rec.step), sessions + SavedBy(rec.arts);
          EventsMirrorStorage(g, cap, fits, sessions', c', Nil, env[0].id, env[1..]);
          BlockThenRest(it.out, RunLoop(g, cap, fits, sessions', c', Nil, env[0].id, env[1..]), parent, env);
        }
      }
    }
  }
}
