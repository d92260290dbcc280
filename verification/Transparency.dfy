/** Interrupt transparency: what remains of a durable history when its interrupt
    snapshots are erased. */
module Transparency {
  import opened Common
  import opened Values
  import opened Artifacts
  import opened EngineSpec
  import opened History

  function Erase(recs: seq<Rec>): seq<Rec> {
    if recs == [] then []
    else
      var n := |recs| - 1;
      if recs[n].interrupt then Erase(recs[..n]) else Erase(recs[..n]) + [recs[n]]
  }

  /** Everything delivered to one super-step before it went through: the commands that
      resumed it, the sessions its pauses had already saved, and the value it received. */
  datatype Visit = Visit(patches: seq<Command>, saved: map<string, Payload>, resume: Value)

  const NO_VISIT := Visit([], map[], Nil)

  /** What the pauses at the tip have accumulated for the super-step still to come. */
  function Pending(recs: seq<Rec>, cmds: seq<Command>): Visit
    requires |recs| == |cmds|
  {
    if recs == [] || !recs[|recs| - 1].interrupt then NO_VISIT
    else
      var n := |recs| - 1;
      var p := Pending(recs[..n], cmds[..n]);
      Visit(p.patches + [cmds[n]], p.saved + SavedBy(recs[n].arts), Nil)
  }

  /** One visit per super-step of the erased history. */
  function Visits(recs: seq<Rec>, cmds: seq<Command>): seq<Visit>
    requires |recs| == |cmds|
  {
    if recs == [] then []
    else
      var n := |recs| - 1;
      var before := Visits(recs[..n], cmds[..n]);
      if recs[n].interrupt then before
      else
        var p := Pending(recs[..n], cmds[..n]);
        before + [Visit(p.patches + [cmds[n]], p.saved, Delivered(recs[..n], cmds[n]))]
  }

  /** How one more record changes the erased history, its visits and what is pending. */
  lemma OneMoreRecord(recs: seq<Rec>, cmds: seq<Command>, rec: Rec, cmd: Command)
    requires |recs| == |cmds|
    ensures var recs', cmds', p := recs + [rec], cmds + [cmd], Pending(recs, cmds);
      if rec.interrupt then
        Erase(recs') == Erase(recs) && Visits(recs', cmds') == Visits(recs, cmds)
        && Pending(recs', cmds') == Visit(p.patches + [cmd], p.saved + SavedBy(rec.arts), Nil)
      else
        Erase(recs') == Erase(recs) + [rec] && Pending(recs', cmds') == NO_VISIT
        && Visits(recs', cmds') == Visits(recs, cmds) + [Visit(p.patches + [cmd], p.saved, Delivered(recs, cmd))]
  {
    assert (recs + [rec])[..|recs|] == recs && (cmds + [cmd])[..|recs|] == cmds;
  }

  function PatchedBy(g: Graph, c: Cursor, patches: seq<Command>): Cursor {
    if patches == [] then c
    else Patched(g, PatchedBy(g, c, patches[..|patches| - 1]), patches[|patches| - 1])
  }

  /** The run that never pauses: a cursor, the sessions saved so far, and its records. */
  datatype Machine = Machine(cursor: Cursor, sessions: map<string, Payload>, recs: seq<Rec>)

  /** One super-step that is given its whole visit directly. */
  function PlayOne(g: Graph, m: Machine, v: Visit): Machine {
    var c, sessions := PatchedBy(g, m.cursor, v.patches), m.sessions + v.saved;
    if AtEnd(c.node) || c.node !in g.nodes then m
    else
      match Attempt(g, c, v.resume, sessions)
      case Advanced(rec) => Machine(Cursor(rec.node, rec.state, rec.step), sessions + SavedBy(rec.arts), m.recs + [rec])
      case _ => m
  }

  function Play(g: Graph, origin: State, visits: seq<Visit>): Machine {
    if visits == [] then Machine(Cursor(g.entry, origin, 0), map[], [])
    else PlayOne(g, Play(g, origin, visits[..|visits| - 1]), visits[|visits| - 1])
  }

  lemma PatchedBySnoc(g: Graph, c: Cursor, patches: seq<Command>, cmd: Command)
    ensures PatchedBy(g, c, patches + [cmd]) == Patched(g, PatchedBy(g, c, patches), cmd)
  {
    assert (patches + [cmd])[..|patches|] == patches;
  }

  lemma PlaySnoc(g: Graph, origin: State, visits: seq<Visit>, v: Visit)
    ensures Play(g, origin, visits + [v]) == PlayOne(g, Play(g, origin, visits), v)
  {
    assert (visits + [v])[..|visits|] == visits;
  }

  /** The machine matches a history with these super-steps, tip and sessions, up to what is
      pending at the tip. */
  ghost predicate Matches(g: Graph, m: Machine, steps: seq<Rec>, tip: Cursor, sessions: map<string, Payload>,
                          p: Visit) {
    m.recs == steps && tip == PatchedBy(g, m.cursor, p.patches) && sessions == m.sessions + p.saved
  }

  ghost predicate InStep(g: Graph, origin: State, recs: seq<Rec>, cmds: seq<Command>)
    requires |recs| == |cmds|
  {
    Matches(g, Play(g, origin, Visits(recs, cmds)), Erase(recs), Tip(g, origin, recs), SessionsOf(recs),
            Pending(recs, cmds))
  }

  lemma SessionsSnoc(recs: seq<Rec>, rec: Rec)
    ensures SessionsOf(recs + [rec]) == SessionsOf(recs) + SavedBy(rec.arts)
  {
    assert (recs + [rec])[..|recs|] == recs;
  }

  lemma PauseRecordsItsCursor(g: Graph, origin: State, recs: seq<Rec>, cmd: Command, rec: Rec)
    requires LawfulStep(g, origin, recs, cmd, rec) && rec.interrupt
    ensures Enter(g, origin, recs, cmd) == Cursor(rec.node, rec.state, rec.step)
  {
  }

  lemma PauseMatches(g: Graph, m: Machine, steps: seq<Rec>, tip: Cursor, sessions: map<string, Payload>, p: Visit,
                     cmd: Command, saved: map<string, Payload>)
    requires Matches(g, m, steps, tip, sessions, p)
    ensures Matches(g, m, steps, Patched(g, tip, cmd), sessions + saved, Visit(p.patches + [cmd], p.saved + saved, Nil))
  {
    PatchedBySnoc(g, m.cursor, p.patches, cmd);
    assert (m.sessions + p.saved) + saved == m.sessions + (p.saved + saved);
  }

  /** A super-step that went through is the one the machine plays with the same visit. */
  lemma AdvanceMatches(g: Graph, origin: State, recs: seq<Rec>, cmd: Command, rec: Rec, m: Machine, steps: seq<Rec>,
                       p: Visit)
    requires LawfulStep(g, origin, recs, cmd, rec) && !rec.interrupt
    requires Matches(g, m, steps, Tip(g, origin, recs), SessionsOf(recs), p)
    ensures Matches(g, PlayOne(g, m, Visit(p.patches + [cmd], p.saved, Delivered(recs, cmd))), steps + [rec],
                    Cursor(rec.node, rec.state, rec.step), SessionsOf(recs) + SavedBy(rec.arts), NO_VISIT)
  {
    PatchedBySnoc(g, m.cursor, p.patches, cmd);
    var sessions := SessionsOf(recs) + SavedBy(rec.arts);
    assert sessions + map[] == sessions;
  }

  /** One more record of a matching history, given what the record changes. */
  lemma OneMoreMatches(g: Graph, origin: State, recs: seq<Rec>, cmd: Command, rec: Rec, visits: seq<Visit>,
                       steps: seq<Rec>, p: Visit)
    requires Matches(g, Play(g, origin, visits), steps, Tip(g, origin, recs), SessionsOf(recs), p)
    requires LawfulStep(g, origin, recs, cmd, rec)
    ensures var tip, sessions := Cursor(rec.node, rec.state, rec.step), SessionsOf(recs) + SavedBy(rec.arts);
      if rec.interrupt then
        Matches(g, Play(g, origin, visits), steps, tip, sessions,
                Visit(p.patches + [cmd], p.saved + SavedBy(rec.arts), Nil))
      else
        Matches(g, Play(g, origin, visits + [Visit(p.patches + [cmd], p.saved, Delivered(recs, cmd))]), steps + [rec],
                tip, sessions, NO_VISIT)
  {
    var m := Play(g, origin, visits);
    if rec.interrupt {
      PauseRecordsItsCursor(g, origin, recs, cmd, rec);
      PauseMatches(g, m, steps, Tip(g, origin, recs), SessionsOf(recs), p, cmd, SavedBy(rec.arts));
    } else {
      AdvanceMatches(g, origin, recs, cmd, rec, m, steps, p);
      PlaySnoc(g, origin, visits, Visit(p.patches + [cmd], p.saved, Delivered(recs, cmd)));
    }
  }

  lemma {:induction false} HistoriesAreInStep(g: Graph, origin: State, recs: seq<Rec>, cmds: seq<Command>)
    requires Lawful(g, origin, recs, cmds)
    ensures InStep(g, origin, recs, cmds)
    decreases |recs|
  {
    if recs == [] {
      assert SessionsOf(recs) == Play(g, origin, []).sessions + NO_VISIT.saved;
    } else {
      var n := |recs| - 1;
      LawfulPrefix(g, origin, recs, cmds, n);
      assert LawfulAt(g, origin, recs, cmds, n);
      HistoriesAreInStep(g, origin, recs[..n], cmds[..n]);
      OneMoreMatches(g, origin, recs[..n], cmds[n], recs[n], Visits(recs[..n], cmds[..n]), Erase(recs[..n]),
                     Pending(recs[..n], cmds[..n]));
    }
  }

  /** Interrupt transparency. Erasing the interrupt snapshots from any durable history
      leaves exactly the history of the run that never paused, in which every super-step
      was given its commands and its resume value directly. */
  lemma InterruptTransparency(g: Graph, origin: State, recs: seq<Rec>, cmds: seq<Command>)
    requires Lawful(g, origin, recs, cmds)
    ensures Play(g, origin, Visits(recs, cmds)).recs == Erase(recs)
    ensures |Visits(recs, cmds)| == |Erase(recs)|
  {
    HistoriesAreInStep(g, origin, recs, cmds);
    OneVisitPerStep(recs, cmds);
  }

  lemma {:induction false} OneVisitPerStep(recs: seq<Rec>, cmds: seq<Command>)
    requires |recs| == |cmds|
    ensures |Visits(recs, cmds)| == |Erase(recs)|
    decreases |recs|
  {
    if recs != [] {
      OneVisitPerStep(recs[..|recs| - 1], cmds[..|recs| - 1]);
    }
  }

  /** The position of record i among the erased ones. */
  function StepIndex(recs: seq<Rec>, i: nat): nat
    requires i <= |recs|
  {
    |Erase(recs[..i])|
  }

  /** A resume value reaches one super-step: number i receives one exactly when the record
      before it is an interrupt, and then it is the value of the command that resumed it. */
  lemma {:induction false} ValueReachesTheNextStep(g: Graph, origin: State, recs: seq<Rec>, cmds: seq<Command>, i: nat)
    requires Lawful(g, origin, recs, cmds) && i < |recs| && !recs[i].interrupt
    ensures StepIndex(recs, i) < |Visits(recs, cmds)|
    ensures var v := Visits(recs, cmds)[StepIndex(recs, i)];
      (v.resume != Nil <==> i > 0 && recs[i - 1].interrupt) && (v.resume != Nil ==> v.resume == cmds[i].resume)
    decreases |recs|
  {
    var n := |recs| - 1;
    OneVisitPerStep(recs[..n], cmds[..n]);
    assert recs[..n][..i] == recs[..i];
    assert LawfulAt(g, origin, recs, cmds, n);
    if i < n {
      LawfulPrefix(g, origin, recs, cmds, n);
      ValueReachesTheNextStep(g, origin, recs[..n], cmds[..n], i);
    }
  }

  /** Exactly when the value reaches the node that paused: in every history the node entered
      after a pause is the paused one if and only if the command does not name another. It
      is entered with the value either way. */
  lemma ReentersThePausedNodeIff(g: Graph, origin: State, recs: seq<Rec>, cmds: seq<Command>, i: nat)
    requires Lawful(g, origin, recs, cmds) && 0 < i < |recs| && recs[i - 1].interrupt
    ensures Enter(g, origin, recs[..i], cmds[i]).node == recs[i - 1].node <==>
            cmds[i].goto == "" || cmds[i].goto == recs[i - 1].node
    ensures Delivered(recs[..i], cmds[i]) == cmds[i].resume != Nil
  {
    assert LawfulAt(g, origin, recs, cmds, i);
  }

  // A node that pauses, and another one that records the resume value it is handed.
  const ASKING_NODE: NodeFn := (i: NodeInput) => Asked(Nil, [])
  const HEARING_NODE: NodeFn := (i: NodeInput) => Returned(map["heard" := i.resume], [])

  const DETOUR_GRAPH := Graph(map["asks" := ASKING_NODE, "hears" := HEARING_NODE], map[], map[], map[], "asks")

  /** And a command can name another: the value given for the pause of one node is delivered
      to a second one, which never asked. */
  lemma GotoDivertsTheValue(value: Value)
    requires value != Nil
    ensures var recs := [Rec("asks", map[], 0, true, Nil, []), Rec(END, map["heard" := value], 1, false, Nil, [])];
      Lawful(DETOUR_GRAPH, map[], recs, [PLAIN, Command(value, map[], "hears")])
  {
    var g, pause, cmd := DETOUR_GRAPH, Rec("asks", map[], 0, true, Nil, []), Command(value, map[], "hears");
    var done := Rec(END, map["heard" := value], 1, false, Nil, []);
    MergedNothing(map[], g.reducers);
    LawfulSnoc(g, map[], [], [], PLAIN, pause);
    assert [] + [pause] == [pause] && [] + [PLAIN] == [PLAIN];
    assert Merged(map[], map["heard" := value], g.reducers) == map["heard" := value];
    assert Attempt(g, Cursor("hears", map[], 0), value, SessionsOf([pause])) == Advanced(done);
    LawfulSnoc(g, map[], [pause], [PLAIN], cmd, done);
  }

  /** Pauses that save no session leave the sessions of the erased history untouched, so
      then the paused run and the direct one agree on what every agent remembers. */
  lemma {:induction false} QuietPausesKeepSessions(recs: seq<Rec>)
    requires QuietPauses(recs)
    ensures SessionsOf(Erase(recs)) == SessionsOf(recs)
  {
    if recs != [] {
      var n := |recs| - 1;
      QuietPausesKeepSessions(recs[..n]);
      if !recs[n].interrupt {
        SessionsSnoc(Erase(recs[..n]), recs[n]);
      } else {
        assert SessionsOf(recs[..n]) + map[] == SessionsOf(recs[..n]);
      }
    }
  }

  /** What a pause saved was remembered already. */
  ghost predicate SavesNothingNew(recs: seq<Rec>, i: nat)
    requires i < |recs|
  {
    SessionsOf(recs[..i]) + SavedBy(recs[i].arts) == SessionsOf(recs[..i])
  }

  ghost predicate MemoryErases(recs: seq<Rec>, n: nat)
    requires n <= |recs|
  {
    SessionsOf(Erase(recs[..n])) == SessionsOf(recs[..n])
  }

  lemma OneMoreErases(recs: seq<Rec>, n: nat)
    requires n < |recs| && MemoryErases(recs, n)
    ensures MemoryErases(recs, n + 1) <==> !recs[n].interrupt || SavesNothingNew(recs, n)
  {
    var before, rec := recs[..n], recs[n];
    assert recs[..n + 1] == before + [rec];
    SessionsSnoc(before, rec);
    OneMoreRecord(before, CommandsFor(PLAIN, n), rec, PLAIN);
    SessionsSnoc(Erase(before), rec);
  }

  /** Exactly when erasing the pauses leaves every agent's memory alone at every point of a
      history: if and only if no pause saved anything new. */
  lemma {:induction false} MemoryErasesIff(recs: seq<Rec>, n: nat)
    requires n <= |recs|
    ensures (forall m: nat :: m <= n ==> MemoryErases(recs, m)) <==>
            (forall i: nat :: i < n && recs[i].interrupt ==> SavesNothingNew(recs, i))
  {
    if n == 0 {
      assert recs[..0] == [];
    } else {
      MemoryErasesIff(recs, n - 1);
      if forall m: nat :: m <= n - 1 ==> MemoryErases(recs, m) {
        OneMoreErases(recs, n - 1);
      }
    }
  }

  /** The same visits as if no pause had saved anything. */
  function WithoutSaves(visits: seq<Visit>): seq<Visit> {
    seq(|visits|, i requires 0 <= i < |visits| => visits[i].(saved := map[]))
  }

  ghost predicate QuietPauses(recs: seq<Rec>) {
    forall i :: 0 <= i < |recs| && recs[i].interrupt ==> SavedBy(recs[i].arts) == map[]
  }

  lemma {:induction false} QuietPendingSavesNothing(recs: seq<Rec>, cmds: seq<Command>)
    requires |recs| == |cmds| && QuietPauses(recs)
    ensures Pending(recs, cmds).saved == map[]
    decreases |recs|
  {
    if TipInterrupted(recs) {
      QuietPendingSavesNothing(recs[..|recs| - 1], cmds[..|recs| - 1]);
    }
  }

  /** With quiet pauses the visits carry nothing but commands and resume values. */
  lemma {:induction false} QuietVisits(recs: seq<Rec>, cmds: seq<Command>)
    requires |recs| == |cmds| && QuietPauses(recs)
    ensures WithoutSaves(Visits(recs, cmds)) == Visits(recs, cmds)
    decreases |recs|
  {
    if recs != [] {
      var n := |recs| - 1;
      QuietVisits(recs[..n], cmds[..n]);
      QuietPendingSavesNothing(recs[..n], cmds[..n]);
      var before := Visits(recs[..n], cmds[..n]);
      assert forall i :: 0 <= i < |before| ==> WithoutSaves(before)[i] == before[i];
    }
  }

  /** Without any saved sessions among the pauses, delivering the commands and the values
      alone reproduces the erased history. */
  lemma QuietTransparency(g: Graph, origin: State, recs: seq<Rec>, cmds: seq<Command>)
    requires Lawful(g, origin, recs, cmds) && QuietPauses(recs)
    ensures Play(g, origin, WithoutSaves(Visits(recs, cmds))).recs == Erase(recs)
  {
    QuietVisits(recs, cmds);
    InterruptTransparency(g, origin, recs, cmds);
  }

  /** No node of this graph ever saves a session on its way into a pause: something the
      graph's author can see before any run. */
  ghost predicate AsksQuietly(g: Graph) {
    forall n, i: NodeInput :: n in g.nodes && g.nodes[n](i).Asked? ==> SavedBy(Collect(g.nodes[n](i).regs)) == map[]
  }

  lemma QuietGraphsPauseQuietly(g: Graph, origin: State, recs: seq<Rec>, cmds: seq<Command>)
    requires AsksQuietly(g) && Lawful(g, origin, recs, cmds)
    ensures QuietPauses(recs)
  {
    forall i | 0 <= i < |recs| && recs[i].interrupt ensures SavedBy(recs[i].arts) == map[] {
      assert LawfulAt(g, origin, recs, cmds, i);
      var c := Enter(g, origin, recs[..i], cmds[i]);
      AttemptPossible(g, c, Delivered(recs[..i], cmds[i]), SessionsOf(recs[..i]));
      assert g.nodes[c.node](NodeInput(c.state, Delivered(recs[..i], cmds[i]), SessionsOf(recs[..i]))).Asked?;
    }
  }

  /** In a graph that asks quietly every history is transparent: commands and resume values
      alone, delivered directly, give the erased history. */
  lemma QuietGraphsAreTransparent(g: Graph, origin: State, recs: seq<Rec>, cmds: seq<Command>)
    requires AsksQuietly(g) && Lawful(g, origin, recs, cmds)
    ensures Play(g, origin, WithoutSaves(Visits(recs, cmds))).recs == Erase(recs)
    ensures SessionsOf(Erase(recs)) == SessionsOf(recs)
  {
    QuietGraphsPauseQuietly(g, origin, recs, cmds);
    QuietTransparency(g, origin, recs, cmds);
    QuietPausesKeepSessions(recs);
  }

  // A node that saves a session before it pauses, and records on re-entry whether it sees it.
  const LOUD_GATE: NodeFn := (i: NodeInput) =>
    if i.resume == Nil then Asked(Nil, [Artifact(AGENT_SESSION, "gate", [])])
    else Returned(map["seen" := Bool("gate" in i.sessions)], [])

  const LOUD_GRAPH := Graph(map["gate" := LOUD_GATE], map[], map[], map[], "gate")

  const LOUD_SAVE := Artifact(AGENT_SESSION, "gate", [])
  const LOUD_PAUSE := Rec("gate", map[], 0, true, Nil, [LOUD_SAVE])
  const LOUD_RESUME := Command(Bool(true), map[], "")

  function LoudDone(seen: bool): Rec {
    Rec(END, map["seen" := Bool(seen)], 1, false, Nil, [])
  }

  lemma LoudPauseIsLawful()
    ensures LawfulStep(LOUD_GRAPH, map[], [], PLAIN, LOUD_PAUSE)
  {
    assert Collect([LOUD_SAVE]) == [LOUD_SAVE] by {
      assert [LOUD_SAVE][..0] == [] && RegisterError([], LOUD_SAVE) == None;
    }
    MergedNothing(map[], LOUD_GRAPH.reducers);
  }

  lemma LoudAttempt(sessions: map<string, Payload>)
    ensures Attempt(LOUD_GRAPH, Cursor("gate", map[], 0), Bool(true), sessions) ==
            Advanced(LoudDone("gate" in sessions))
  {
    var upd := map["seen" := Bool("gate" in sessions)];
    assert Merged(map[], upd, LOUD_GRAPH.reducers) == upd;
  }

  lemma LoudDirectRun(v: Visit)
    requires v == Visit([PLAIN] + [LOUD_RESUME], map[], Bool(true))
    ensures Play(LOUD_GRAPH, map[], [] + [v]).recs == [LoudDone(false)]
  {
    var g := LOUD_GRAPH;
    PlaySnoc(g, map[], [], v);
    PatchedBySnoc(g, Cursor("gate", map[], 0), [PLAIN], LOUD_RESUME);
    PatchedBySnoc(g, Cursor("gate", map[], 0), [], PLAIN);
    assert [] + [PLAIN] == [PLAIN];
    MergedNothing(map[], g.reducers);
    LoudAttempt(map[] + map[]);
  }

  /** The condition matters: a pause that saves a session is visible to the re-entered node,
      so that the paused history differs from the one whose gate got its value directly. */
  lemma LoudPauseIsNotTransparent()
    ensures var recs, cmds := [LOUD_PAUSE] + [LoudDone(true)], [PLAIN] + [LOUD_RESUME];
      Lawful(LOUD_GRAPH, map[], recs, cmds)
        && Play(LOUD_GRAPH, map[], WithoutSaves(Visits(recs, cmds))).recs != Erase(recs)
  {
    var pause, done := [LOUD_PAUSE], LoudDone(true);
    LoudPauseIsLawful();
    LawfulSnoc(LOUD_GRAPH, map[], [], [], PLAIN, LOUD_PAUSE);
    OneMoreRecord([], [], LOUD_PAUSE, PLAIN);
    SessionsSnoc([], LOUD_PAUSE);
    assert [] + pause == pause && [] + [PLAIN] == [PLAIN];
    assert "gate" in SavedBy([LOUD_SAVE]);
    MergedNothing(map[], LOUD_GRAPH.reducers);
    LoudAttempt(SessionsOf(pause));
    LawfulSnoc(LOUD_GRAPH, map[], pause, [PLAIN], LOUD_RESUME, done);
    OneMoreRecord(pause, [PLAIN], done, LOUD_RESUME);
    var v := Visit([PLAIN] + [LOUD_RESUME], map[], Bool(true));
    assert WithoutSaves(Visits(pause + [done], [PLAIN] + [LOUD_RESUME])) == [] + [v];
    LoudDirectRun(v);
    assert done.state["seen"] == Bool(true) && LoudDone(false).state["seen"] == Bool(false);
    assert Erase(pause + [done])[0] == done;
  }
}
