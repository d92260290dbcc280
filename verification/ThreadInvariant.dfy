/** What a thread's tables mean: the retained history is a suffix of the full log of
    commits, and the copied reference tables answer a question about that log. */
module ThreadInvariant {
  import opened Common
  import opened Artifacts
  import opened ThreadSpec

  /** One accepted commit: the stored snapshot and the artifacts it came with. */
  datatype Entry = Entry(snap: Snapshot, arts: seq<Artifact>)

  /** The last payload saved for an agent among `arts[..n]`. */
  function LastPayload(arts: seq<Artifact>, n: nat, agent: string): Option<Payload>
    requires n <= |arts|
  {
    if n == 0 then None
    else if IsSession(arts[n - 1]) && arts[n - 1].key == agent then Some(arts[n - 1].payload)
    else LastPayload(arts, n - 1, agent)
  }

  predicate Saves(e: Entry, agent: string) {
    LastPayload(e.arts, |e.arts|, agent).Some?
  }

  /** The payload of the newest entry among `log[..n]` that saved this agent. */
  function SessionAt(log: seq<Entry>, n: nat, agent: string): Option<Payload>
    requires n <= |log|
  {
    if n == 0 then None
    else
      var own := LastPayload(log[n - 1].arts, |log[n - 1].arts|, agent);
      if own.Some? then own else SessionAt(log, n - 1, agent)
  }

  /** `j` is the nearest ancestor-or-self of `at` that saved `agent`. */
  ghost predicate IsNearestSave(log: seq<Entry>, at: nat, j: nat, agent: string)
    requires at < |log|
  {
    j <= at && Saves(log[j], agent) && forall k :: j < k <= at ==> !Saves(log[k], agent)
  }

  /** Entry i names entry i - 1 as its parent and carries revision i + 1. */
  ghost predicate Linked(log: seq<Entry>, thread: string, i: nat)
    requires i < |log|
  {
    && log[i].snap.id != ""
    && log[i].snap.thread == thread
    && log[i].snap.revision == i + 1
    && log[i].snap.parent == if i == 0 then "" else log[i - 1].snap.id
  }

  ghost predicate Chained(log: seq<Entry>, thread: string) {
    forall i: nat :: i < |log| ==> Linked(log, thread, i)
  }

  /** No id was ever used twice, retained or not. */
  ghost predicate DistinctIds(log: seq<Entry>) {
    forall i, j :: 0 <= i < j < |log| ==> log[i].snap.id != log[j].snap.id
  }

  function Dropped(t: Thread, log: seq<Entry>): int {
    |log| - |t.history|
  }

  /** The retained history is a non-empty suffix of the log ending at the tip. */
  ghost predicate Retained(t: Thread, log: seq<Entry>) {
    && |t.history| <= |log|
    && (log == [] <==> t.history == [])
    && (forall i :: 0 <= i < |t.history| ==> t.history[i] == log[Dropped(t, log) + i].snap)
    && (forall i, j :: 0 <= i < j < |t.history| ==> t.history[i].id != t.history[j].id)
    && t.revision == |log|
    && t.latest == (if log == [] then "" else log[|log| - 1].snap.id)
  }

  /** The tables give `expected` for this agent at this checkpoint. */
  ghost predicate RefExact(t: Thread, id: string, agent: string, thread: string, expected: Option<Payload>) {
    id in t.refs &&
    match expected
    case None => agent !in t.refs[id]
    case Some(p) =>
      agent in t.refs[id] &&
      var sid := t.refs[id][agent];
      sid in t.sessions && t.sessions[sid] == p && sid in t.meta && t.meta[sid] == AgentMeta(thread, agent)
  }

  /** The i-th retained checkpoint answers for this agent as its ancestors in the log do. */
  ghost predicate RowExact(t: Thread, log: seq<Entry>, thread: string, i: nat, agent: string)
    requires |t.history| <= |log| && i < |t.history|
  {
    RefExact(t, t.history[i].id, agent, thread, SessionAt(log, Dropped(t, log) + i + 1, agent))
  }

  ghost predicate RefsExact(t: Thread, log: seq<Entry>, thread: string)
    requires |t.history| <= |log|
  {
    && t.refs.Keys == Ids(t.history)
    && t.meta.Keys == t.sessions.Keys
    && forall i: nat, agent :: i < |t.history| ==> RowExact(t, log, thread, i, agent)
  }

  ghost predicate ThreadInv(t: Thread, log: seq<Entry>, thread: string) {
    Chained(log, thread) && Retained(t, log) && RefsExact(t, log, thread)
  }

  /** Every stored session is referenced, and every referenced one is stored. */
  ghost predicate NoOrphans(t: Thread) {
    t.sessions.Keys == Referenced(t.refs)
  }

  // ---------------------------------------------------------------- commits

  ghost predicate SavedExact(base: Saved, s: Saved, thread: string, arts: seq<Artifact>, draw: nat -> string, n: nat,
                             agent: string)
    requires n <= |arts|
  {
    match LastPayload(arts, n, agent)
    case None => (agent in s.refs <==> agent in base.refs) && (agent in base.refs ==> s.refs[agent] == base.refs[agent])
    case Some(p) =>
      agent in s.refs &&
      var sid := s.refs[agent];
      (exists j :: 0 <= j < n && sid == draw(j)) && sid in s.sessions && s.sessions[sid] == p && sid in s.meta
        && s.meta[sid] == AgentMeta(thread, agent)
  }

  ghost predicate Undrawn(base: Saved, draw: nat -> string) {
    && (forall i, j :: i != j ==> draw(i) != draw(j))
    && (forall i :: draw(i) !in base.sessions && draw(i) !in base.meta)
  }

  lemma {:induction false} SaveSessionsExact(base: Saved, thread: string, arts: seq<Artifact>, draw: nat -> string,
                                             n: nat)
    requires n <= |arts| && Undrawn(base, draw) && base.meta.Keys == base.sessions.Keys
    ensures var s := SaveSessions(base, thread, arts, draw, n);
      && s.meta.Keys == s.sessions.Keys
      && (forall sid :: sid in base.sessions ==>
           sid in s.sessions && s.sessions[sid] == base.sessions[sid] && s.meta[sid] == base.meta[sid])
      && (forall sid :: sid in s.sessions && sid !in base.sessions ==>
           exists j :: 0 <= j < n && IsSession(arts[j]) && sid == draw(j))
      && (forall j :: 0 <= j < n && IsSession(arts[j]) ==> draw(j) in s.sessions)
      && (forall agent :: SavedExact(base, s, thread, arts, draw, n, agent))
  {
    if n > 0 {
      SaveSessionsExact(base, thread, arts, draw, n - 1);
      var p := SaveSessions(base, thread, arts, draw, n - 1);
      var s := SaveSessions(base, thread, arts, draw, n);
      forall agent ensures SavedExact(base, s, thread, arts, draw, n, agent) {
        assert SavedExact(base, p, thread, arts, draw, n - 1, agent);
      }
    }
  }

  lemma AppendKeepsOldRow(t: Thread, log: seq<Entry>, thread: string, snap: Snapshot, arts: seq<Artifact>,
                          draw: nat -> string, i: nat, agent: string)
    requires ThreadInv(t, log, thread) && FreshDraw(t, draw) && i < |t.history|
    requires !HasId(t.history, snap.id) && snap.thread == thread
    ensures RowExact(Append(t, snap, arts, draw), log + [Entry(snap.(revision := t.revision + 1), arts)], thread, i,
                     agent)
  {
    SaveSessionsExact(Saved(t.sessions, t.meta, ParentRefs(t, snap.parent)), thread, arts, draw, |arts|);
    var log' := log + [Entry(snap.(revision := t.revision + 1), arts)];
    SessionAtPrefix(log, log', Dropped(t, log) + i + 1, agent);
    var t', expected := Append(t, snap, arts, draw), SessionAt(log, Dropped(t, log) + i + 1, agent);
    assert RefExact(t, t.history[i].id, agent, thread, expected) by {
      assert RowExact(t, log, thread, i, agent);
    }
    assert RefExact(t', t.history[i].id, agent, thread, expected) by {
      assert t.history[i].id != snap.id;
    }
    assert t'.history[i] == t.history[i];
  }

  lemma AppendMakesNewRow(t: Thread, log: seq<Entry>, thread: string, snap: Snapshot, arts: seq<Artifact>,
                          draw: nat -> string, agent: string)
    requires ThreadInv(t, log, thread) && FreshDraw(t, draw)
    requires snap.thread == thread && t.latest == snap.parent
    ensures RowExact(Append(t, snap, arts, draw), log + [Entry(snap.(revision := t.revision + 1), arts)], thread,
                     |t.history|, agent)
  {
    var log' := log + [Entry(snap.(revision := t.revision + 1), arts)];
    SessionAtPrefix(log, log', |log|, agent);
    TipRefs(t, log, thread, agent);
    SavedRow(t, snap, arts, draw, agent, SessionAt(log, |log|, agent));
    assert log'[|log|].arts == arts;
    var own := LastPayload(arts, |arts|, agent);
    assert SessionAt(log', |log'|, agent) == if own.Some? then own else SessionAt(log, |log|, agent);
    assert Append(t, snap, arts, draw).history[|t.history|].id == snap.id;
  }

  /** What the references of a parent say about an agent. */
  ghost predicate ParentExact(t: Thread, parent: string, agent: string, thread: string, expected: Option<Payload>) {
    if parent == "" then expected == None else RefExact(t, parent, agent, thread, expected)
  }

  lemma TipRefs(t: Thread, log: seq<Entry>, thread: string, agent: string)
    requires ThreadInv(t, log, thread)
    ensures ParentExact(t, t.latest, agent, thread, SessionAt(log, |log|, agent))
  {
    if log != [] {
      assert Linked(log, thread, |log| - 1);
      assert RowExact(t, log, thread, |t.history| - 1, agent);
    }
  }

  /** The table of a new checkpoint names what was saved now, or else what its parent named. */
  lemma SavedRow(t: Thread, snap: Snapshot, arts: seq<Artifact>, draw: nat -> string, agent: string,
                 before: Option<Payload>)
    requires t.meta.Keys == t.sessions.Keys && FreshDraw(t, draw)
    requires ParentExact(t, snap.parent, agent, snap.thread, before)
    ensures var own := LastPayload(arts, |arts|, agent);
      RefExact(Append(t, snap, arts, draw), snap.id, agent, snap.thread, if own.Some? then own else before)
  {
    var base := Saved(t.sessions, t.meta, ParentRefs(t, snap.parent));
    SaveSessionsExact(base, snap.thread, arts, draw, |arts|);
    var s := SaveSessions(base, snap.thread, arts, draw, |arts|);
    assert SavedExact(base, s, snap.thread, arts, draw, |arts|, agent);
  }

  /** An accepted commit extends the log and keeps every table exact. */
  lemma AppendKeepsInv(t: Thread, log: seq<Entry>, thread: string, snap: Snapshot, arts: seq<Artifact>,
                       draw: nat -> string)
    requires ThreadInv(t, log, thread) && FreshDraw(t, draw)
    requires snap.thread == thread && snap.id != "" && Judge(t, snap).Accepted?
    ensures ThreadInv(Append(t, snap, arts, draw), log + [Entry(snap.(revision := t.revision + 1), arts)], thread)
  {
    var t', log' := Append(t, snap, arts, draw), log + [Entry(snap.(revision := t.revision + 1), arts)];
    AppendKeepsShape(t, log, thread, snap, arts, draw);
    forall i: nat, agent | i < |t'.history| ensures RowExact(t', log', thread, i, agent) {
      if i < |t.history| {
        AppendKeepsOldRow(t, log, thread, snap, arts, draw, i, agent);
      } else {
        AppendMakesNewRow(t, log, thread, snap, arts, draw, agent);
      }
    }
  }

  lemma ChainSnoc(log: seq<Entry>, thread: string, e: Entry)
    requires Chained(log, thread) && e.snap.id != "" && e.snap.thread == thread && e.snap.revision == |log| + 1
    requires e.snap.parent == if log == [] then "" else log[|log| - 1].snap.id
    ensures Chained(log + [e], thread)
  {
    forall i: nat | i < |log + [e]| ensures Linked(log + [e], thread, i) {
      assert i < |log| ==> Linked(log, thread, i);
    }
  }

  lemma RetainedSnoc(t: Thread, log: seq<Entry>, s: Snapshot, arts: seq<Artifact>, t': Thread)
    requires Retained(t, log) && !HasId(t.history, s.id)
    requires t'.history == t.history + [s] && t'.latest == s.id && t'.revision == t.revision + 1
    ensures Retained(t', log + [Entry(s, arts)])
  {
  }

  lemma AppendKeepsShape(t: Thread, log: seq<Entry>, thread: string, snap: Snapshot, arts: seq<Artifact>,
                         draw: nat -> string)
    requires Chained(log, thread) && Retained(t, log)
    requires t.refs.Keys == Ids(t.history) && t.meta.Keys == t.sessions.Keys
    requires snap.thread == thread && snap.id != "" && !HasId(t.history, snap.id) && t.latest == snap.parent
    ensures var t', log' := Append(t, snap, arts, draw), log + [Entry(snap.(revision := t.revision + 1), arts)];
      Chained(log', thread) && Retained(t', log') && t'.refs.Keys == Ids(t'.history) && t'.meta.Keys == t'.sessions.Keys
  {
    var s := snap.(revision := t.revision + 1);
    ChainSnoc(log, thread, Entry(s, arts));
    RetainedSnoc(t, log, s, arts, Append(t, snap, arts, draw));
    IdsSnoc(t.history, s);
    MetaFollowsSessions(Saved(t.sessions, t.meta, ParentRefs(t, snap.parent)), thread, arts, draw, |arts|);
  }

  lemma {:induction false} MetaFollowsSessions(base: Saved, thread: string, arts: seq<Artifact>, draw: nat -> string,
                                               n: nat)
    requires n <= |arts| && base.meta.Keys == base.sessions.Keys
    ensures var s := SaveSessions(base, thread, arts, draw, n); s.meta.Keys == s.sessions.Keys
  {
    if n > 0 {
      MetaFollowsSessions(base, thread, arts, draw, n - 1);
    }
  }

  lemma IdsSnoc(h: seq<Snapshot>, s: Snapshot)
    ensures Ids(h + [s]) == Ids(h) + {s.id}
  {
    var h' := h + [s];
    assert h'[|h|] == s;
    assert forall i :: 0 <= i < |h| ==> h'[i] == h[i];
  }

  lemma {:induction false} SessionAtPrefix(log: seq<Entry>, longer: seq<Entry>, n: nat, agent: string)
    requires n <= |log| && log <= longer
    ensures SessionAt(log, n, agent) == SessionAt(longer, n, agent)
  {
    if n > 0 {
      SessionAtPrefix(log, longer, n - 1, agent);
    }
  }

  // ----------------------------------------------------------- reading back

  lemma {:induction false} SessionAtIsNearest(log: seq<Entry>, at: nat, agent: string)
    requires at < |log|
    ensures match SessionAt(log, at + 1, agent)
            case None => forall j :: 0 <= j <= at ==> !Saves(log[j], agent)
            case Some(p) =>
              exists j: nat ::
                IsNearestSave(log, at, j, agent) && LastPayload(log[j].arts, |log[j].arts|, agent) == Some(p)
  {
    if Saves(log[at], agent) {
      assert IsNearestSave(log, at, at, agent);
    } else if at == 0 {
      assert SessionAt(log, 0, agent) == None;
    } else {
      SessionAtIsNearest(log, at - 1, agent);
      assert SessionAt(log, at + 1, agent) == SessionAt(log, at, agent);
      if SessionAt(log, at, agent).Some? {
        var j: nat :| IsNearestSave(log, at - 1, j, agent)
          && LastPayload(log[j].arts, |log[j].arts|, agent) == SessionAt(log, at, agent);
        assert IsNearestSave(log, at, j, agent);
      }
    }
  }

  /** Reading a session at a retained checkpoint returns what the nearest ancestor in the
      full log saved for that agent, however much of the log has been pruned, and nothing
      exactly when no ancestor saved one. */
  lemma SessionIsNearestAncestors(t: Thread, log: seq<Entry>, thread: string, i: nat, agent: string)
    requires ThreadInv(t, log, thread) && i < |t.history|
    ensures var at := Dropped(t, log) + i;
      match AgentSession(t, t.history[i].id, agent)
      case None => forall j :: 0 <= j <= at ==> !Saves(log[j], agent)
      case Some(p) =>
        exists j: nat :: IsNearestSave(log, at, j, agent) && LastPayload(log[j].arts, |log[j].arts|, agent) == Some(p)
  {
    SessionAtIsNearest(log, Dropped(t, log) + i, agent);
    assert RowExact(t, log, thread, i, agent);
  }

  /** The latest checkpoint is the last commit ever accepted, and there is none exactly
      when nothing was committed. */
  lemma LatestIsTip(t: Thread, log: seq<Entry>, thread: string)
    requires ThreadInv(t, log, thread)
    ensures LatestOf(t) == if log == [] then None else Some(log[|log| - 1].snap)
    ensures t.latest == "" <==> log == []
  {
    if log != [] {
      assert Linked(log, thread, |log| - 1);
      assert t.history[|t.history| - 1] == log[|log| - 1].snap;
    }
  }

  // ---------------------------------------------------------------- pruning

  lemma PruneShape(t: Thread, keep: nat, cut: nat, t': Thread)
    requires forall i, j :: 0 <= i < j < |t.history| ==> t.history[i].revision <= t.history[j].revision
    requires 0 < keep < |t.history| && cut == |t.history| - keep && t' == Prune(t, keep)
    ensures t' == Swept(t, t.history[cut..], t.refs - Ids(t.history[..cut]))
  {
    SortFixesAscending(t.history);
  }

  lemma HistoryAscends(t: Thread, log: seq<Entry>, thread: string)
    requires Chained(log, thread) && Retained(t, log)
    ensures forall i, j :: 0 <= i < j < |t.history| ==> t.history[i].revision < t.history[j].revision
    ensures log != [] ==> t.history[|t.history| - 1] == log[|log| - 1].snap && log[|log| - 1].snap.revision == |log|
  {
    forall i | 0 <= i < |t.history| ensures t.history[i].revision == Dropped(t, log) + i + 1 {
      assert Linked(log, thread, Dropped(t, log) + i);
    }
  }

  /** Pruning never changes the log; it keeps the tip, the revision counter and every
      answer about a kept checkpoint, and leaves exactly the referenced sessions. */
  lemma PruneKeepsInv(t: Thread, log: seq<Entry>, thread: string, keep: nat)
    requires ThreadInv(t, log, thread) && keep > 0
    ensures ThreadInv(Prune(t, keep), log, thread)
    ensures Prune(t, keep).latest == t.latest && Prune(t, keep).revision == t.revision
    ensures Prune(t, keep).history == t.history[if |t.history| > keep then |t.history| - keep else 0..]
    ensures NoOrphans(t) || |t.history| > keep ==> NoOrphans(Prune(t, keep))
  {
    if |t.history| > keep {
      HistoryAscends(t, log, thread);
      var cut, t' := |t.history| - keep, Prune(t, keep);
      PruneShape(t, keep, cut, t');
      CutKeepsInv(t, log, thread, cut, t');
    }
  }

  lemma CutKeepsInv(t: Thread, log: seq<Entry>, thread: string, cut: nat, t': Thread)
    requires ThreadInv(t, log, thread) && cut < |t.history|
    requires t' == Swept(t, t.history[cut..], t.refs - Ids(t.history[..cut]))
    ensures ThreadInv(t', log, thread) && NoOrphans(t')
    ensures t'.latest == t.latest && t'.revision == t.revision && t'.history == t.history[cut..]
  {
    assert t'.history[|t'.history| - 1] == t.history[|t.history| - 1];
    HistoryAscends(t, log, thread);
    IdsSplit(t.history, cut);
    PrunedSessionsReferenced(t, log, thread, cut, t');
    forall i: nat, agent | i < |t'.history| ensures RowExact(t', log, thread, i, agent) {
      assert RowExact(t, log, thread, cut + i, agent);
      PrunedRow(t, log, thread, cut, t', i, agent);
    }
  }

  lemma PrunedRow(t: Thread, log: seq<Entry>, thread: string, cut: nat, t': Thread, i: nat, agent: string)
    requires cut + i < |t.history| <= |log| && RowExact(t, log, thread, cut + i, agent)
    requires t' == Swept(t, t.history[cut..], t.refs - Ids(t.history[..cut])) && t'.refs.Keys == Ids(t.history[cut..])
    ensures RowExact(t', log, thread, i, agent)
  {
    var id, expected := t.history[cut + i].id, SessionAt(log, Dropped(t, log) + cut + i + 1, agent);
    assert t'.history[i] == t.history[cut..][i] == t.history[cut + i];
    assert id in t'.refs.Keys;
    SweptRow(t, t.history[cut..], t'.refs, id, agent, thread, expected);
  }

  /** A reference that stays keeps its meaning. */
  lemma SweptRow(t: Thread, kept: seq<Snapshot>, refs: map<string, map<string, string>>, id: string, agent: string,
                 thread: string, expected: Option<Payload>)
    requires kept != [] && RefExact(t, id, agent, thread, expected) && id in refs && refs[id] == t.refs[id]
    ensures RefExact(Swept(t, kept, refs), id, agent, thread, expected)
  {
    if agent in refs[id] {
      assert refs[id][agent] in Referenced(refs);
    }
  }

  lemma IdsSplit(h: seq<Snapshot>, cut: nat)
    requires cut <= |h|
    requires forall i, j :: 0 <= i < j < |h| ==> h[i].id != h[j].id
    ensures Ids(h) - Ids(h[..cut]) == Ids(h[cut..])
  {
    forall id | id in Ids(h) && id !in Ids(h[..cut]) ensures id in Ids(h[cut..]) {
      var i :| 0 <= i < |h| && h[i].id == id;
      assert forall k :: 0 <= k < cut ==> h[..cut][k] == h[k];
      assert h[cut..][i - cut].id == id;
    }
  }

  lemma PrunedSessionsReferenced(t: Thread, log: seq<Entry>, thread: string, cut: nat, t': Thread)
    requires ThreadInv(t, log, thread)
    requires cut < |t.history| && t' == Swept(t, t.history[cut..], t.refs - Ids(t.history[..cut]))
    ensures t'.sessions.Keys == Referenced(t'.refs) && t'.meta.Keys == t'.sessions.Keys
  {
    forall c, a | c in t'.refs && a in t'.refs[c] ensures t'.refs[c][a] in t.sessions {
      var i :| 0 <= i < |t.history| && t.history[i].id == c;
      assert RowExact(t, log, thread, i, a);
    }
  }

  // ------------------------------------------------------ garbage collection

  /** What one accepted commit adds to the referenced sessions: those of its own table. */
  lemma AppendReferences(t: Thread, snap: Snapshot, arts: seq<Artifact>, draw: nat -> string)
    requires snap.id !in t.refs
    ensures var t' := Append(t, snap, arts, draw);
      Referenced(t'.refs) == Referenced(t.refs) + t'.refs[snap.id].Values
  {
    var t' := Append(t, snap, arts, draw);
    assert forall c :: c in t.refs ==> c in t'.refs && t'.refs[c] == t.refs[c];
    forall sid | sid in t'.refs[snap.id].Values ensures sid in Referenced(t'.refs) {
      var a :| a in t'.refs[snap.id] && t'.refs[snap.id][a] == sid;
    }
    forall sid | sid in Referenced(t.refs) ensures sid in Referenced(t'.refs) {
      var c, a :| c in t.refs && a in t.refs[c] && t.refs[c][a] == sid;
      assert c in t'.refs && a in t'.refs[c];
    }
  }

  /** An accepted commit leaves no orphaned session exactly when it saves no agent twice. */
  lemma CommitOrphansIff(t: Thread, log: seq<Entry>, thread: string, snap: Snapshot, arts: seq<Artifact>,
                         draw: nat -> string)
    requires ThreadInv(t, log, thread) && FreshDraw(t, draw) && NoOrphans(t)
    requires snap.thread == thread && Judge(t, snap).Accepted?
    ensures NoOrphans(Append(t, snap, arts, draw)) <==> DistinctSessions(arts)
  {
    var base := Saved(t.sessions, t.meta, ParentRefs(t, snap.parent));
    var s := SaveSessions(base, thread, arts, draw, |arts|);
    AppendReferences(t, snap, arts, draw);
    ParentRefsReferenced(t, snap.parent);
    SavedOrphansIff(base, thread, arts, draw, t.sessions.Keys);
  }

  lemma ParentRefsReferenced(t: Thread, parent: string)
    ensures ParentRefs(t, parent).Values <= Referenced(t.refs)
  {
  }

  /** The new tables hold no orphan exactly when no agent is saved twice. */
  lemma SavedOrphansIff(base: Saved, thread: string, arts: seq<Artifact>, draw: nat -> string, live: set<string>)
    requires Undrawn(base, draw) && base.meta.Keys == base.sessions.Keys == live && base.refs.Values <= live
    ensures var s := SaveSessions(base, thread, arts, draw, |arts|);
      s.sessions.Keys == live + s.refs.Values <==> DistinctSessions(arts)
  {
    var s := SaveSessions(base, thread, arts, draw, |arts|);
    SaveSessionsExact(base, thread, arts, draw, |arts|);
    forall sid | sid in s.refs.Values ensures sid in s.sessions {
      var a :| a in s.refs && s.refs[a] == sid;
      assert SavedExact(base, s, thread, arts, draw, |arts|, a);
      assert a in base.refs ==> base.refs[a] in base.refs.Values;
    }
    forall j: nat | j < |arts| && IsSession(arts[j])
      ensures draw(j) in s.refs.Values <==> forall k :: j < k < |arts| && IsSession(arts[k]) ==>
              arts[k].key != arts[j].key
    {
      assert forall a :: a in base.refs ==> base.refs[a] in base.refs.Values;
      SavedUnlessOverwritten(base, thread, arts, draw, |arts|, j);
    }
  }

  lemma {:induction false} SavedUnlessOverwritten(base: Saved, thread: string, arts: seq<Artifact>,
                                                  draw: nat -> string, n: nat, j: nat)
    requires n <= |arts| && Undrawn(base, draw) && j < n && IsSession(arts[j])
    requires forall a :: a in base.refs ==> base.refs[a] in base.sessions
    ensures var refs := SaveSessions(base, thread, arts, draw, n).refs;
      (draw(j) in refs.Values <==> (forall k :: j < k < n && IsSession(arts[k]) ==> arts[k].key != arts[j].key))
      && (forall a :: a in refs && refs[a] == draw(j) ==> a == arts[j].key)
  {
    NotDrawnYet(base, thread, arts, draw, n - 1, j);
    var p, s := SaveSessions(base, thread, arts, draw, n - 1).refs, SaveSessions(base, thread, arts, draw, n).refs;
    if j == n - 1 {
      assert arts[j].key in s && s[arts[j].key] == draw(j);
    } else {
      SavedUnlessOverwritten(base, thread, arts, draw, n - 1, j);
      if draw(j) in p.Values {
        assert arts[j].key in p && p[arts[j].key] == draw(j);
      }
      if draw(j) in p.Values && !(IsSession(arts[n - 1]) && arts[n - 1].key == arts[j].key) {
        assert arts[j].key in s && s[arts[j].key] == draw(j);
      }
    }
  }

  lemma {:induction false} NotDrawnYet(base: Saved, thread: string, arts: seq<Artifact>, draw: nat -> string, n: nat,
                                       j: nat)
    requires n <= |arts| && Undrawn(base, draw)
    requires forall a :: a in base.refs ==> base.refs[a] in base.sessions
    ensures n <= j ==> draw(j) !in SaveSessions(base, thread, arts, draw, n).refs.Values
  {
    if n > 0 {
      NotDrawnYet(base, thread, arts, draw, n - 1, j);
    }
  }
}
