/** Durable histories: which sequences of records the engine can leave in a store over
    any number of runs, crashes, interrupts and resumes, and what they all satisfy. */
module History {
  import opened Common
  import opened Values
  import opened EngineSpec

  /** A resume command; nil, empty and "" stand for fields left out. */
  datatype Command = Command(resume: Value, update: Update, goto: string)

  const PLAIN := Command(Nil, map[], "")

  lemma MergedNothing(s: State, reducers: map<string, Reducer>)
    ensures Merged(s, map[], reducers) == s
  {
  }

  function Patched(g: Graph, c: Cursor, cmd: Command): Cursor {
    Cursor(if cmd.goto != "" then cmd.goto else c.node, Merged(c.state, cmd.update, g.reducers), c.step)
  }

  function Tip(g: Graph, origin: State, recs: seq<Rec>): Cursor {
    if recs == [] then Cursor(g.entry, origin, 0)
    else var last := recs[|recs| - 1]; Cursor(last.node, last.state, last.step)
  }

  predicate TipInterrupted(recs: seq<Rec>) {
    recs != [] && recs[|recs| - 1].interrupt
  }

  /** Where a run that continues these records with this command starts. */
  function Enter(g: Graph, origin: State, recs: seq<Rec>, cmd: Command): Cursor {
    Patched(g, Tip(g, origin, recs), cmd)
  }

  /** The value delivered to the first node: only an interrupted node gets one. */
  function Delivered(recs: seq<Rec>, cmd: Command): Value {
    if TipInterrupted(recs) then cmd.resume else Nil
  }

  /** An engine run may append this record to these records under this command. */
  ghost predicate LawfulStep(g: Graph, origin: State, recs: seq<Rec>, cmd: Command, rec: Rec) {
    var c := Enter(g, origin, recs, cmd);
    && !AtEnd(c.node) && c.node in g.nodes
    && (recs == [] ==> cmd == PLAIN)
    && (TipInterrupted(recs) ==> cmd.resume != Nil)
    && var o := Attempt(g, c, Delivered(recs, cmd), SessionsOf(recs)); (o == Advanced(rec) || o == Paused(rec))
  }

  ghost predicate LawfulAt(g: Graph, origin: State, recs: seq<Rec>, cmds: seq<Command>, i: nat)
    requires i < |recs| && i < |cmds|
  {
    LawfulStep(g, origin, recs[..i], cmds[i], recs[i])
  }

  /** Every record was appended by some run; `cmds[i]` is the command in force for record i. */
  ghost predicate Lawful(g: Graph, origin: State, recs: seq<Rec>, cmds: seq<Command>) {
    |cmds| == |recs| && forall i: nat :: i < |recs| ==> LawfulAt(g, origin, recs, cmds, i)
  }

  /** The commands a run works under: its own for the first record, then none. */
  function CommandsFor(cmd: Command, n: nat): seq<Command> {
    if n == 0 then [] else [cmd] + seq(n - 1, _ => PLAIN)
  }

  lemma LawfulSnoc(g: Graph, origin: State, recs: seq<Rec>, cmds: seq<Command>, cmd: Command, rec: Rec)
    requires Lawful(g, origin, recs, cmds) && LawfulStep(g, origin, recs, cmd, rec)
    ensures Lawful(g, origin, recs + [rec], cmds + [cmd])
  {
    var recs', cmds' := recs + [rec], cmds + [cmd];
    assert recs'[..|recs|] == recs;
    forall i: nat | i < |recs'| ensures LawfulAt(g, origin, recs', cmds', i) {
      if i < |recs| {
        assert recs'[..i] == recs[..i];
        assert LawfulAt(g, origin, recs, cmds, i);
      }
    }
  }

  lemma LawfulPrefix(g: Graph, origin: State, recs: seq<Rec>, cmds: seq<Command>, n: nat)
    requires Lawful(g, origin, recs, cmds) && n <= |recs|
    ensures Lawful(g, origin, recs[..n], cmds[..n])
  {
    forall i: nat | i < n ensures LawfulAt(g, origin, recs[..n], cmds[..n], i) {
      assert recs[..n][..i] == recs[..i];
      assert LawfulAt(g, origin, recs, cmds, i);
    }
  }

  /** An iteration commits nothing, or the record its node came out with. */
  lemma ConcludedCommits(c: Cursor, o: Outcome, fits: bool, parent: string, t: Tick, execs: seq<Exec>)
    requires Possible(c, o)
    ensures var it := Concluded(c, o, fits, parent, t, execs);
      && |it.out.recs| <= 1
      && (it.out.recs != [] ==> o == Advanced(it.out.recs[0]) || o == Paused(it.out.recs[0]))
      && (it.next.Some? ==> it.out.recs == [it.next.value] && !it.next.value.interrupt)
  {
  }

  lemma IterationIsLawful(g: Graph, origin: State, recs: seq<Rec>, cmd: Command, parent: string, t: Tick)
    requires (recs == [] ==> cmd == PLAIN) && (TipInterrupted(recs) ==> cmd.resume != Nil)
    requires !AtEnd(Enter(g, origin, recs, cmd).node)
    ensures var it := Iterate(g, true, SessionsOf(recs), Enter(g, origin, recs, cmd), Delivered(recs, cmd), parent, t);
      && |it.out.recs| <= 1
      && (it.out.recs != [] ==> LawfulStep(g, origin, recs, cmd, it.out.recs[0]))
      && (it.next.Some? ==> it.out.recs == [it.next.value] && !it.next.value.interrupt)
  {
    var c, resume := Enter(g, origin, recs, cmd), Delivered(recs, cmd);
    if Gate(g, c.node, t).None? {
      AttemptPossible(g, c, resume, SessionsOf(recs));
      ConcludedCommits(c, Attempt(g, c, resume, SessionsOf(recs)), true, parent, t,
                       [Exec(c.node, NodeInput(c.state, resume, SessionsOf(recs)))]);
    }
  }

  lemma ContinueFrom(g: Graph, origin: State, recs: seq<Rec>, rec: Rec)
    requires !rec.interrupt
    ensures var recs' := recs + [rec];
      && SessionsOf(recs') == SessionsOf(recs) + SavedBy(rec.arts)
      && Enter(g, origin, recs', PLAIN) == Cursor(rec.node, rec.state, rec.step)
      && Delivered(recs', PLAIN) == Nil
  {
    assert (recs + [rec])[..|recs|] == recs;
    MergedNothing(rec.state, g.reducers);
  }

  /** A run under this command may append these records. */
  ghost predicate MayAppend(g: Graph, origin: State, recs: seq<Rec>, cmds: seq<Command>, cmd: Command,
                            added: seq<Rec>) {
    Lawful(g, origin, recs + added, cmds + CommandsFor(cmd, |added|))
  }

  lemma MayAppendNone(g: Graph, origin: State, recs: seq<Rec>, cmds: seq<Command>, cmd: Command)
    requires Lawful(g, origin, recs, cmds)
    ensures MayAppend(g, origin, recs, cmds, cmd, [])
  {
    assert recs + [] == recs && cmds + [] == cmds;
  }

  lemma MayAppendOne(g: Graph, origin: State, recs: seq<Rec>, cmds: seq<Command>, cmd: Command, rec: Rec)
    requires Lawful(g, origin, recs, cmds) && LawfulStep(g, origin, recs, cmd, rec)
    ensures MayAppend(g, origin, recs, cmds, cmd, [rec])
  {
    LawfulSnoc(g, origin, recs, cmds, cmd, rec);
    assert CommandsFor(cmd, 1) == [cmd];
  }

  lemma MayAppendMore(g: Graph, origin: State, recs: seq<Rec>, cmds: seq<Command>, cmd: Command, rec: Rec,
                      rest: seq<Rec>)
    requires MayAppend(g, origin, recs + [rec], cmds + [cmd], PLAIN, rest)
    ensures MayAppend(g, origin, recs, cmds, cmd, [rec] + rest)
  {
    assert recs + ([rec] + rest) == (recs + [rec]) + rest;
    assert cmds + CommandsFor(cmd, 1 + |rest|) == (cmds + [cmd]) + CommandsFor(PLAIN, |rest|);
  }

  /** Whatever the environment does to a run, the records it appends to a lawful history
      make a lawful history. */
  lemma {:induction false} RunsAreLawful(g: Graph, origin: State, recs: seq<Rec>, cmds: seq<Command>, cmd: Command,
                                         cap: int, parent: string, env: seq<Tick>)
    requires Lawful(g, origin, recs, cmds)
    requires (recs == [] ==> cmd == PLAIN) && (TipInterrupted(recs) ==> cmd.resume != Nil)
    ensures var out := RunLoop(g, cap, true, SessionsOf(recs), Enter(g, origin, recs, cmd), Delivered(recs, cmd),
                               parent, env);
      MayAppend(g, origin, recs, cmds, cmd, out.recs)
    decreases |env|
  {
    MayAppendNone(g, origin, recs, cmds, cmd);
    var c := Enter(g, origin, recs, cmd);
    if !AtEnd(c.node) && env != [] {
      IterationIsLawful(g, origin, recs, cmd, parent, env[0]);
      var it := Iterate(g, true, SessionsOf(recs), c, Delivered(recs, cmd), parent, env[0]);
      if it.out.recs != [] {
        var rec := it.out.recs[0];
        MayAppendOne(g, origin, recs, cmds, cmd, rec);
        assert it.out.recs == [rec];
        if it.next.Some? && !Capped(cap, rec.step) {
          LawfulSnoc(g, origin, recs, cmds, cmd, rec);
          ContinueFrom(g, origin, recs, rec);
          RunsAreLawful(g, origin, recs + [rec], cmds + [cmd], PLAIN, cap, env[0].id, env[1..]);
          var rest := RunLoop(g, cap, true, SessionsOf(recs) + SavedBy(rec.arts),
                              Cursor(rec.node, rec.state, rec.step), Nil, env[0].id, env[1..]);
          MayAppendMore(g, origin, recs, cmds, cmd, rec, rest.recs);
        }
      }
    }
  }

  // ------------------------------------------------- crash/resume equivalence

  /** No interrupts, and every resume without a command. */
  ghost predicate Straightforward(recs: seq<Rec>, cmds: seq<Command>) {
    (forall i :: 0 <= i < |recs| ==> !recs[i].interrupt) && (forall i :: 0 <= i < |cmds| ==> cmds[i] == PLAIN)
  }

  /** An undisturbed iteration commits the record a lawful history has next. */
  lemma StraightStep(g: Graph, origin: State, recs: seq<Rec>, rec: Rec, parent: string, t: Tick)
    requires LawfulStep(g, origin, recs, PLAIN, rec) && !rec.interrupt && Undisturbed([t])
    ensures var tip := Tip(g, origin, recs);
      && !AtEnd(tip.node)
      && var it := Iterate(g, true, SessionsOf(recs), tip, Nil, parent, t); it.out.recs == [rec] && it.next == Some(rec)
  {
    assert Undisturbed([t]) ==> [t][0] == t;
    MergedNothing(Tip(g, origin, recs).state, g.reducers);
  }

  /** The loop from here commits all of these first, and nothing else once they reach the end. */
  ghost predicate Commits(out: RunOut, recs: seq<Rec>, ended: bool) {
    recs <= out.recs && (ended ==> out.recs == recs && out.stop == Completed)
  }

  lemma SplitAt(recs: seq<Rec>, k: nat)
    requires k < |recs|
    ensures recs[..k + 1] == recs[..k] + [recs[k]] && recs[k..] == [recs[k]] + recs[k + 1..]
  {
  }

  lemma {:induction false} StraightFrom(g: Graph, origin: State, recs: seq<Rec>, cmds: seq<Command>, k: nat,
                                        parent: string, env: seq<Tick>)
    requires Lawful(g, origin, recs, cmds) && Straightforward(recs, cmds)
    requires k <= |recs| && Undisturbed(env) && |recs| - k <= |env|
    ensures Commits(RunLoop(g, 0, true, SessionsOf(recs[..k]), Tip(g, origin, recs[..k]), Nil, parent, env),
                    recs[k..], AtEnd(Tip(g, origin, recs).node))
    decreases |recs| - k
  {
    if k == |recs| {
      assert recs[..k] == recs;
    } else {
      var rec := recs[k];
      assert LawfulAt(g, origin, recs, cmds, k);
      assert Undisturbed([env[0]]);
      StraightStep(g, origin, recs[..k], rec, parent, env[0]);
      SplitAt(recs, k);
      ContinueFrom(g, origin, recs[..k], rec);
      StraightFrom(g, origin, recs, cmds, k + 1, env[0].id, env[1..]);
    }
  }

  /** The commands alone decide: two histories of one origin whose first commands agree have
      the same first records, pauses included. */
  lemma {:induction false} CommandsDecide(g: Graph, origin: State, recs: seq<Rec>, cmds: seq<Command>,
                                          recs': seq<Rec>, cmds': seq<Command>, n: nat)
    requires Lawful(g, origin, recs, cmds) && Lawful(g, origin, recs', cmds')
    requires n <= |recs| && n <= |recs'| && cmds[..n] == cmds'[..n]
    ensures recs[..n] == recs'[..n]
  {
    if n > 0 {
      assert cmds[..n - 1] == cmds[..n][..n - 1] && cmds'[..n - 1] == cmds'[..n][..n - 1];
      CommandsDecide(g, origin, recs, cmds, recs', cmds', n - 1);
      assert LawfulAt(g, origin, recs, cmds, n - 1) && LawfulAt(g, origin, recs', cmds', n - 1);
      assert cmds[n - 1] == cmds[..n][n - 1] == cmds'[..n][n - 1];
      assert recs[..n] == recs[..n - 1] + [recs[n - 1]] && recs'[..n] == recs'[..n - 1] + [recs'[n - 1]];
    }
  }

  /** Record i was made under a command that answers a pause. */
  predicate AnswersPause(recs: seq<Rec>, i: nat)
    requires i < |recs|
  {
    i > 0 && recs[i - 1].interrupt
  }

  /** The commands given at pauses, in order. */
  function Answers(recs: seq<Rec>, cmds: seq<Command>, n: nat): seq<Command>
    requires n <= |recs| && n <= |cmds|
  {
    if n == 0 then []
    else Answers(recs, cmds, n - 1) + if AnswersPause(recs, n - 1) then [cmds[n - 1]] else []
  }

  /** No command but at pauses. */
  ghost predicate PlainBetweenPauses(recs: seq<Rec>, cmds: seq<Command>) {
    |recs| == |cmds| && forall i: nat :: i < |recs| && !AnswersPause(recs, i) ==> cmds[i] == PLAIN
  }

  lemma {:induction false} AnswersAscend(recs: seq<Rec>, cmds: seq<Command>, m: nat, n: nat)
    requires m <= n <= |recs| && n <= |cmds|
    ensures Answers(recs, cmds, m) <= Answers(recs, cmds, n)
    decreases n
  {
    if m < n {
      AnswersAscend(recs, cmds, m, n - 1);
    }
  }

  /** Crashes between pauses change nothing: however often each of two threads with the same
      input was stopped and plainly resumed in between, if their pauses were answered alike
      as far as both were, then one history is a prefix of the other. */
  lemma {:induction false} AnswersDecide(g: Graph, origin: State, recs: seq<Rec>, cmds: seq<Command>,
                                         recs': seq<Rec>, cmds': seq<Command>, n: nat)
    requires Lawful(g, origin, recs, cmds) && Lawful(g, origin, recs', cmds')
    requires PlainBetweenPauses(recs, cmds) && PlainBetweenPauses(recs', cmds')
    requires n <= |recs| && n <= |recs'|
    requires Answers(recs, cmds, |recs|) <= Answers(recs', cmds', |recs'|)
    ensures recs[..n] == recs'[..n] && cmds[..n] == cmds'[..n]
    ensures Answers(recs, cmds, n) == Answers(recs', cmds', n)
  {
    if n > 0 {
      AnswersDecide(g, origin, recs, cmds, recs', cmds', n - 1);
      SameCommandNext(recs, cmds, recs', cmds', n);
      assert cmds[..n] == cmds[..n - 1] + [cmds[n - 1]] && cmds'[..n] == cmds'[..n - 1] + [cmds'[n - 1]];
      CommandsDecide(g, origin, recs, cmds, recs', cmds', n);
    }
  }

  lemma SameCommandNext(recs: seq<Rec>, cmds: seq<Command>, recs': seq<Rec>, cmds': seq<Command>, n: nat)
    requires PlainBetweenPauses(recs, cmds) && PlainBetweenPauses(recs', cmds')
    requires 0 < n <= |recs| && n <= |recs'| && recs[..n - 1] == recs'[..n - 1]
    requires Answers(recs, cmds, |recs|) <= Answers(recs', cmds', |recs'|)
    requires Answers(recs, cmds, n - 1) == Answers(recs', cmds', n - 1)
    ensures cmds[n - 1] == cmds'[n - 1] && Answers(recs, cmds, n) == Answers(recs', cmds', n)
  {
    if n > 1 {
      assert recs[n - 2] == recs[..n - 1][n - 2] == recs'[..n - 1][n - 2];
    }
    assert AnswersPause(recs, n - 1) <==> AnswersPause(recs', n - 1);
    if AnswersPause(recs, n - 1) {
      AnswersAscend(recs, cmds, n, |recs|);
      AnswersAscend(recs', cmds', n, |recs'|);
      var k := |Answers(recs, cmds, n - 1)|;
      assert Answers(recs, cmds, n)[k] == cmds[n - 1] && Answers(recs', cmds', n)[k] == cmds'[n - 1];
    }
  }

  /** Crash/resume equivalence. However often a thread was stopped (crash, cancellation,
      lost lease, step cap) and resumed, its records are a prefix of those of the one
      uninterrupted run, and once the graph has reached its end they are all of them. */
  lemma CrashResumeEquivalence(g: Graph, origin: State, recs: seq<Rec>, cmds: seq<Command>, env: seq<Tick>)
    requires Lawful(g, origin, recs, cmds) && Straightforward(recs, cmds)
    requires Undisturbed(env) && |recs| <= |env|
    ensures var straight := RunLoop(g, 0, true, map[], Cursor(g.entry, origin, 0), Nil, "", env);
      recs <= straight.recs && (AtEnd(Tip(g, origin, recs).node) ==>
                                 recs == straight.recs && straight.stop == Completed)
  {
    assert recs[..0] == [] && recs[0..] == recs;
    StraightFrom(g, origin, recs, cmds, 0, "", env);
  }
}
