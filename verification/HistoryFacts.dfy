/** What every durable history satisfies: step counting, growing message lists, and its
    correspondence with the log of the store it was committed to. */
module HistoryFacts {
  import opened Common
  import opened Values
  import opened Artifacts
  import opened ThreadSpec
  import opened ThreadInvariant
  import opened EngineSpec
  import opened History

  function Interrupts(recs: seq<Rec>): nat {
    if recs == [] then 0 else Interrupts(recs[..|recs| - 1]) + if recs[|recs| - 1].interrupt then 1 else 0
  }

  /** An interrupt keeps the step counter, a super-step increments it, and commands never
      touch it: the length of a history is its last step plus its interrupts. */
  lemma {:induction false} StepsPlusInterrupts(g: Graph, origin: State, recs: seq<Rec>, cmds: seq<Command>)
    requires Lawful(g, origin, recs, cmds)
    ensures Tip(g, origin, recs).step + Interrupts(recs) == |recs|
    decreases |recs|
  {
    if recs != [] {
      var n := |recs| - 1;
      LawfulPrefix(g, origin, recs, cmds, n);
      StepsPlusInterrupts(g, origin, recs[..n], cmds[..n]);
      assert LawfulAt(g, origin, recs, cmds, n);
    }
  }

  lemma {:induction false} StepsNeverFall(g: Graph, origin: State, recs: seq<Rec>, cmds: seq<Command>, i: nat, j: nat)
    requires Lawful(g, origin, recs, cmds) && i <= j < |recs|
    ensures recs[i].step <= recs[j].step
  {
    if i < j {
      StepsNeverFall(g, origin, recs, cmds, i, j - 1);
      assert LawfulAt(g, origin, recs, cmds, j);
    }
  }

  /** A snapshot without its ids, and the artifacts it was committed with. */
  function RecOf(e: Entry): Rec {
    Rec(e.snap.node, e.snap.state, e.snap.step, e.snap.interrupt, e.snap.interruptValue, e.arts)
  }

  /** The snapshot the engine builds for a record; the store fills in the revision. */
  function SnapOf(rec: Rec, id: string, parent: string, thread: string): Snapshot {
    Snapshot(id, parent, thread, 0, rec.node, rec.state, rec.step, rec.interrupt, rec.value)
  }

  function Recs(log: seq<Entry>): (recs: seq<Rec>)
    ensures |recs| == |log| && forall i :: 0 <= i < |log| ==> recs[i] == RecOf(log[i])
  {
    seq(|log|, i requires 0 <= i < |log| => RecOf(log[i]))
  }

  /** In an engine-driven thread every checkpoint's revision is its step counter plus the
      interrupt snapshots up to and including it. */
  lemma RevisionCountsStepsAndInterrupts(t: Thread, log: seq<Entry>, thread: string, g: Graph, origin: State,
                                         cmds: seq<Command>, i: nat)
    requires ThreadInv(t, log, thread) && Lawful(g, origin, Recs(log), cmds) && i < |log|
    ensures log[i].snap.revision == log[i].snap.step + Interrupts(Recs(log)[..i + 1])
  {
    assert Linked(log, thread, i);
    var recs := Recs(log)[..i + 1];
    LawfulPrefix(g, origin, Recs(log), cmds, i + 1);
    StepsPlusInterrupts(g, origin, recs, cmds[..i + 1]);
    assert recs[|recs| - 1] == RecOf(log[i]);
  }

  /** The reducer registered for this key is the appending one. */
  ghost predicate Appends(g: Graph, key: string) {
    key in g.reducers && forall a, b :: g.reducers[key](a, b) == AppendSlice(a, b)
  }

  lemma OneStepGrowsList(g: Graph, origin: State, recs: seq<Rec>, cmd: Command, rec: Rec, key: string)
    requires Appends(g, key) && LawfulStep(g, origin, recs, cmd, rec)
    ensures ListGrows(Tip(g, origin, recs).state, rec.state, key)
  {
    var tip, c := Tip(g, origin, recs), Enter(g, origin, recs, cmd);
    MergeGrowsAppendedList(tip.state, cmd.update, g.reducers, key);
    match g.nodes[c.node](NodeInput(c.state, Delivered(recs, cmd), SessionsOf(recs)))
    case Returned(upd, regs) => MergeGrowsAppendedList(c.state, upd, g.reducers, key);
    case _ =>
  }

  /** Under the appending reducer a list in any snapshot is a prefix of that list in every
      later snapshot, across interrupts, crashes, resumes and command updates. */
  lemma {:induction false} AppendedListsOnlyGrow(g: Graph, origin: State, recs: seq<Rec>, cmds: seq<Command>,
                                                 key: string, i: nat, j: nat)
    requires Lawful(g, origin, recs, cmds) && Appends(g, key) && i <= j < |recs|
    ensures ListGrows(recs[i].state, recs[j].state, key) && ListGrows(origin, recs[j].state, key)
    decreases j
  {
    assert LawfulAt(g, origin, recs, cmds, j);
    OneStepGrowsList(g, origin, recs[..j], cmds[j], recs[j], key);
    if j > 0 {
      AppendedListsOnlyGrow(g, origin, recs, cmds, key, if i < j then i else j - 1, j - 1);
    }
  }

  lemma {:induction false} SavedByIsLast(arts: seq<Artifact>, n: nat, agent: string)
    requires n <= |arts|
    ensures LastPayload(arts, n, agent) == if agent in SavedBy(arts[..n]) then Some(SavedBy(arts[..n])[agent]) else None
  {
    if n > 0 {
      assert arts[..n][..n - 1] == arts[..n - 1];
      SavedByIsLast(arts, n - 1, agent);
    }
  }

  /** The sessions a node sees are exactly what the store's log answers at its parent. */
  lemma {:induction false} SessionsFollowLog(log: seq<Entry>, n: nat, agent: string)
    requires n <= |log|
    ensures SessionAt(log, n, agent) ==
      if agent in SessionsOf(Recs(log)[..n]) then Some(SessionsOf(Recs(log)[..n])[agent]) else None
  {
    if n > 0 {
      var recs, arts := Recs(log)[..n], log[n - 1].arts;
      assert recs[..n - 1] == Recs(log)[..n - 1] && recs[n - 1].arts == arts && arts[..|arts|] == arts;
      SessionsFollowLog(log, n - 1, agent);
      SavedByIsLast(arts, |arts|, agent);
    }
  }

  /** What a node sees when it asks the store for every agent at a checkpoint. */
  function StoredSessions(t: Thread, id: string): map<string, Payload> {
    if id in t.refs then map a | a in t.refs[id] && t.refs[id][a] in t.sessions :: t.sessions[t.refs[id][a]]
    else map[]
  }

  /** A run that starts without a parent checkpoint asks for no session at all. */
  function SeenSessions(t: Thread, parent: string): map<string, Payload> {
    if parent == "" then map[] else StoredSessions(t, parent)
  }

  /** At the tip, the store's answers are the sessions of the whole history. */
  lemma TipSessions(t: Thread, log: seq<Entry>, thread: string)
    requires ThreadInv(t, log, thread)
    ensures StoredSessions(t, t.latest) == SessionsOf(Recs(log))
  {
    if log == [] {
      assert Recs(log) == [];
    } else {
      forall agent
        ensures agent in StoredSessions(t, t.latest) <==> agent in SessionsOf(Recs(log))
        ensures agent in StoredSessions(t, t.latest) ==>
                StoredSessions(t, t.latest)[agent] == SessionsOf(Recs(log))[agent]
      {
        TipSession(t, log, thread, agent);
      }
    }
  }

  lemma TipSession(t: Thread, log: seq<Entry>, thread: string, agent: string)
    requires ThreadInv(t, log, thread) && log != []
    ensures var stored, sessions := StoredSessions(t, t.latest), SessionsOf(Recs(log));
      (agent in stored <==> agent in sessions) && (agent in stored ==> stored[agent] == sessions[agent])
  {
    var last := |t.history| - 1;
    assert Recs(log)[..|log|] == Recs(log) && t.history[last].id == t.latest;
    assert RefExact(t, t.latest, agent, thread, SessionAt(log, |log|, agent)) by {
      assert RowExact(t, log, thread, last, agent);
    }
    SessionsFollowLog(log, |log|, agent);
  }
}
