/** The in-process durable store (checkpoint/durable_memory.go): one object per thread
    record, mutated in place. Every method is one critical section of the source. */
module DurableMemory {
  import opened Common
  import opened Artifacts
  import opened ThreadSpec
  import opened ThreadInvariant
  import opened Paging

  class MemThread {
    var latestID: string
    var revision: int
    var history: seq<Snapshot>
    var sessions: map<string, Payload>
    var agentMeta: map<string, AgentMeta>
    var refs: map<string, map<string, string>>

    constructor ()
      ensures Value() == EMPTY_THREAD
    {
      latestID, revision, history := "", 0, [];
      sessions, agentMeta, refs := map[], map[], map[];
    }

    ghost function Value(): Thread
      reads this
    {
      Thread(latestID, revision, history, sessions, agentMeta, refs)
    }
  }

  /** A thread without a record reads like an empty one. */
  ghost function ThreadOf(view: map<string, Thread>, id: string): Thread {
    if id in view then view[id] else EMPTY_THREAD
  }

  ghost function LogOf(logs: map<string, seq<Entry>>, id: string): seq<Entry> {
    if id in logs then logs[id] else []
  }

  ghost function CommitView(view: map<string, Thread>, snap: Snapshot, arts: seq<Artifact>,
                            draw: nat -> string): map<string, Thread> {
    view[snap.thread := Commit(ThreadOf(view, snap.thread), snap, arts, draw)]
  }

  /** The log grows by the stored snapshot exactly when the commit is accepted. */
  ghost function CommitLog(t: Thread, log: seq<Entry>, snap: Snapshot, arts: seq<Artifact>): seq<Entry> {
    if Judge(t, snap).Accepted? then log + [Entry(snap.(revision := t.revision + 1), arts)] else log
  }

  ghost predicate ViewInv(view: map<string, Thread>, logs: map<string, seq<Entry>>) {
    view.Keys == logs.Keys && forall id :: SoundAt(view, logs, id)
  }

  ghost predicate SoundAt(view: map<string, Thread>, logs: map<string, seq<Entry>>, id: string) {
    ThreadInv(ThreadOf(view, id), LogOf(logs, id), id)
  }

  lemma ThreadOfInv(view: map<string, Thread>, logs: map<string, seq<Entry>>, id: string)
    requires ViewInv(view, logs)
    ensures ThreadInv(ThreadOf(view, id), LogOf(logs, id), id)
  {
    assert SoundAt(view, logs, id);
  }

  lemma UpdateViewInv(view: map<string, Thread>, logs: map<string, seq<Entry>>, id: string, t: Thread, log: seq<Entry>)
    requires ViewInv(view, logs) && ThreadInv(t, log, id)
    ensures ViewInv(view[id := t], logs[id := log])
  {
    var view', logs' := view[id := t], logs[id := log];
    forall other ensures SoundAt(view', logs', other) {
      assert SoundAt(view, logs, other);
    }
  }

  lemma RemoveViewInv(view: map<string, Thread>, logs: map<string, seq<Entry>>, id: string)
    requires ViewInv(view, logs)
    ensures ViewInv(view - {id}, logs - {id})
  {
    assert RefsExact(EMPTY_THREAD, [], id);
    var view', logs' := view - {id}, logs - {id};
    forall other ensures SoundAt(view', logs', other) {
      assert SoundAt(view, logs, other);
    }
  }

  lemma CommitViewInv(view: map<string, Thread>, logs: map<string, seq<Entry>>, snap: Snapshot, arts: seq<Artifact>,
                      draw: nat -> string)
    requires ViewInv(view, logs) && snap.thread != "" && snap.id != ""
    requires FreshDraw(ThreadOf(view, snap.thread), draw)
    ensures ViewInv(CommitView(view, snap, arts, draw),
                    logs[snap.thread := CommitLog(ThreadOf(view, snap.thread), LogOf(logs, snap.thread), snap, arts)])
  {
    ThreadOfInv(view, logs, snap.thread);
    var t, log := ThreadOf(view, snap.thread), LogOf(logs, snap.thread);
    if Judge(t, snap).Accepted? {
      AppendKeepsInv(t, log, snap.thread, snap, arts, draw);
    }
    UpdateViewInv(view, logs, snap.thread, Commit(t, snap, arts, draw), CommitLog(t, log, snap, arts));
  }

  lemma PruneViewInv(view: map<string, Thread>, logs: map<string, seq<Entry>>, id: string, keep: nat)
    requires ViewInv(view, logs) && id in view && keep > 0
    ensures ViewInv(view[id := ThreadSpec.Prune(view[id], keep)], logs)
  {
    ThreadOfInv(view, logs, id);
    PruneKeepsInv(view[id], logs[id], id, keep);
    UpdateViewInv(view, logs, id, ThreadSpec.Prune(view[id], keep), logs[id]);
    assert logs[id := logs[id]] == logs;
  }

  /** Every read of every thread gives the same answer; a rejected commit may still have
      left an empty record behind. */
  ghost predicate SameReads(view: map<string, Thread>, view': map<string, Thread>,
                            logs: map<string, seq<Entry>>, logs': map<string, seq<Entry>>)
  {
    forall id :: ThreadOf(view', id) == ThreadOf(view, id) && LogOf(logs', id) == LogOf(logs, id)
  }

  lemma RejectedCommitUnread(view: map<string, Thread>, logs: map<string, seq<Entry>>, snap: Snapshot,
                             arts: seq<Artifact>, draw: nat -> string)
    ensures var t, log := ThreadOf(view, snap.thread), LogOf(logs, snap.thread);
      CommitError(t, snap).Some? ==>
        SameReads(view, CommitView(view, snap, arts, draw), logs, logs[snap.thread := CommitLog(t, log, snap, arts)])
  {
  }

  class DurableMemory {
    var threads: map<string, MemThread>
    /** Everything ever committed to a live thread, pruned or not. */
    ghost var logs: map<string, seq<Entry>>

    ghost function View(): map<string, Thread>
      reads `threads, threads.Values
    {
      map id | id in threads :: threads[id].Value()
    }

    /** Records are not shared between threads, and each is sound for its log. */
    ghost predicate Valid()
      reads this, threads.Values
    {
      Owned() && ViewInv(View(), logs)
    }

    ghost predicate Owned()
      reads `threads
    {
      forall a, b :: a in threads && b in threads && a != b ==> threads[a] != threads[b]
    }

    constructor ()
      ensures Valid() && View() == map[] && logs == map[]
    {
      threads, logs := map[], map[];
      new;
      forall id ensures SoundAt(View(), logs, id) {
        assert RefsExact(EMPTY_THREAD, [], id);
      }
    }

    /** Mutating the record of one thread changes the view at that thread only. */
    twostate lemma OneRecordChanged(id: string)
      requires Owned() && unchanged(`threads) && id in threads
      requires forall other :: other in threads && threads[other] != threads[id] ==> unchanged(threads[other])
      ensures View() == old(View())[id := threads[id].Value()]
    {
      forall other | other in threads && other != id ensures threads[other].Value() == old(threads[other].Value()) {
        assert threads[other] != threads[id];
      }
    }

    /** The record of a thread, created on first use. */
    method ThreadLocked(threadID: string) returns (t: MemThread)
      requires Owned()
      modifies this`threads
      ensures Owned() && threads == old(threads)[threadID := t]
      ensures View() == old(View())[threadID := t.Value()] && t.Value() == old(ThreadOf(View(), threadID))
      ensures t in old(threads.Values) || fresh(t)
    {
      if threadID in threads {
        t := threads[threadID];
      } else {
        t := new MemThread();
        threads := threads[threadID := t];
      }
    }

    method CommitStepLocked(snap: Snapshot, arts: seq<Artifact>, draw: nat -> string) returns (err: Option<Error>)
      requires Valid() && snap.thread != "" && snap.id != ""
      requires FreshDraw(ThreadOf(View(), snap.thread), draw)
      modifies this, threads.Values
      ensures Valid() && fresh(threads.Values - old(threads.Values))
      ensures err == CommitError(ThreadOf(old(View()), snap.thread), snap)
      ensures View() == CommitView(old(View()), snap, arts, draw)
      ensures logs == old(logs)[snap.thread :=
                CommitLog(ThreadOf(old(View()), snap.thread), LogOf(old(logs), snap.thread), snap, arts)]
    {
      ghost var view, was := View(), logs;
      CommitViewInv(view, was, snap, arts, draw);
      err := CommitTables(snap, arts, draw);
      logs := was[snap.thread := CommitLog(ThreadOf(view, snap.thread), LogOf(was, snap.thread), snap, arts)];
    }

    method CommitTables(snap: Snapshot, arts: seq<Artifact>, draw: nat -> string) returns (err: Option<Error>)
      requires Owned()
      modifies this`threads, threads.Values
      ensures Owned() && fresh(threads.Values - old(threads.Values))
      ensures err == CommitError(ThreadOf(old(View()), snap.thread), snap)
      ensures View() == CommitView(old(View()), snap, arts, draw)
    {
      var t := ThreadLocked(snap.thread);
      label ensured:
      err := CommitRecord(t, snap, arts, draw);
      OneRecordChanged@ensured(snap.thread);
      PutTwice(old(View()), snap.thread, old@ensured(t.Value()), t.Value());
    }

    method CommitStep(snap: Snapshot, arts: seq<Artifact>, draw: nat -> string) returns (err: Option<Error>)
      requires Valid() && FreshDraw(ThreadOf(View(), snap.thread), draw)
      modifies this, threads.Values
      ensures Valid() && fresh(threads.Values - old(threads.Values))
      ensures snap.thread == "" ==> err == Some(MissingThreadID) && View() == old(View()) && logs == old(logs)
      ensures snap.thread != "" && snap.id == "" ==>
              err == Some(MissingCheckpointID) && View() == old(View()) && logs == old(logs)
      ensures snap.thread != "" && snap.id != "" ==>
                && err == CommitError(ThreadOf(old(View()), snap.thread), snap)
                && View() == CommitView(old(View()), snap, arts, draw)
                && logs == old(logs)[snap.thread :=
                     CommitLog(ThreadOf(old(View()), snap.thread), LogOf(old(logs), snap.thread), snap, arts)]
    {
      if snap.thread == "" {
        return Some(MissingThreadID);
      }
      if snap.id == "" {
        return Some(MissingCheckpointID);
      }
      err := CommitStepLocked(snap, arts, draw);
    }

    /** The snapshot the tip points at; `LatestIsTip` says that it is the log's last entry. */
    method GetLatest(threadID: string) returns (r: Option<Snapshot>)
      ensures r == LatestOf(ThreadOf(View(), threadID))
    {
      if threadID !in threads || threads[threadID].latestID == "" {
        return None;
      }
      r := FindNewest(threads[threadID].history, threads[threadID].latestID);
    }

    method GetByID(threadID: string, id: string) returns (r: Option<Snapshot>)
      requires Valid()
      ensures r == FindById(ThreadOf(View(), threadID), id)
    {
      if threadID !in threads {
        return None;
      }
      var t := threads[threadID];
      for i := 0 to |t.history|
        invariant forall j :: 0 <= j < i ==> t.history[j].id != id
      {
        if t.history[i].id == id {
          assert HasId(t.history, id) && IndexOf(t.history, id) == i;
          return Some(t.history[i]);
        }
      }
      return None;
    }

    method List(threadID: string, beforeRevision: int, limit: int) returns (out: seq<SnapshotMeta>)
      ensures out == Page(ThreadOf(View(), threadID).history, beforeRevision, limit)
    {
      if threadID !in threads {
        return [];
      }
      var t := threads[threadID];
      out := ListRecord(t.history, beforeRevision, limit);
    }

    method DeleteThread(threadID: string)
      requires Valid()
      modifies this
      ensures Valid() && threads.Values <= old(threads.Values)
      ensures View() == old(View()) - {threadID} && logs == old(logs) - {threadID}
    {
      ghost var view := View();
      RemoveViewInv(view, logs, threadID);
      threads := threads - {threadID};
      logs := logs - {threadID};
      assert View() == view - {threadID};
    }

    method Prune(threadID: string, keepLast: int) returns (err: Option<Error>)
      requires Valid()
      modifies this, threads.Values
      ensures Valid() && threads.Values <= old(threads.Values)
      ensures err == if keepLast < 0 then Some(NegativeKeepLast) else None
      ensures keepLast < 0 || threadID !in old(threads) ==> View() == old(View()) && logs == old(logs)
      ensures keepLast == 0 ==> View() == old(View()) - {threadID} && logs == old(logs) - {threadID}
      ensures keepLast > 0 && threadID in old(threads) ==>
                View() == old(View())[threadID := ThreadSpec.Prune(old(View())[threadID], keepLast)]
                  && logs == old(logs)
    {
      if keepLast < 0 {
        return Some(NegativeKeepLast);
      }
      if threadID !in threads {
        assert View() - {threadID} == View() && logs - {threadID} == logs;
        return None;
      }
      if keepLast == 0 {
        DeleteThread(threadID);
        return None;
      }
      var t := threads[threadID];
      ghost var view, was := View(), logs;
      PruneViewInv(view, was, threadID, keepLast);
      if |t.history| > keepLast {
        PruneRecord(t, keepLast);
      }
      assert View() == view[threadID := ThreadSpec.Prune(view[threadID], keepLast)];
      return None;
    }

    /** Some checkpoint's reference, if both it and the session are still stored. */
    method GetAgentSession(threadID: string, id: string, agent: string) returns (r: Option<Payload>)
      ensures r == AgentSession(ThreadOf(View(), threadID), id, agent)
    {
      if threadID !in threads {
        return None;
      }
      var t := threads[threadID];
      if id !in t.refs {
        return None;
      }
      var refs := t.refs[id];
      if agent !in refs {
        return None;
      }
      var sid := refs[agent];
      if sid !in t.sessions {
        return None;
      }
      return Some(t.sessions[sid]);
    }
  }

  /** The body of a commit on one record: idempotent retry, compare-and-set on the parent,
      then the session tables and the new tip. */
  method CommitRecord(t: MemThread, snap: Snapshot, arts: seq<Artifact>, draw: nat -> string)
      returns (err: Option<Error>)
    modifies t
    ensures err == CommitError(old(t.Value()), snap)
    ensures t.Value() == Commit(old(t.Value()), snap, arts, draw)
  {
    for i := 0 to |t.history|
      invariant t.Value() == old(t.Value())
      invariant forall j :: 0 <= j < i ==> t.history[j].id != snap.id
    {
      var existing := t.history[i];
      if existing.id == snap.id {
        assert HasId(t.history, snap.id) && IndexOf(t.history, snap.id) == i;
        if existing.parent == snap.parent && existing.thread == snap.thread {
          return None;
        }
        return Some(CheckpointConflict);
      }
    }
    if t.latestID != snap.parent {
      return Some(CheckpointConflict);
    }

    var rev := t.revision + 1;
    var newRefs := map[];
    if snap.parent != "" && snap.parent in t.refs {
      newRefs := t.refs[snap.parent];
    }
    ghost var base := Saved(t.sessions, t.agentMeta, newRefs);
    for i := 0 to |arts|
      invariant Saved(t.sessions, t.agentMeta, newRefs) == SaveSessions(base, snap.thread, arts, draw, i)
      invariant t.latestID == old(t.latestID) && t.revision == old(t.revision)
      invariant t.history == old(t.history) && t.refs == old(t.refs)
    {
      var art := arts[i];
      if !IsSession(art) {
        continue;
      }
      var sid := draw(i);
      t.sessions := t.sessions[sid := art.payload];
      t.agentMeta := t.agentMeta[sid := AgentMeta(snap.thread, art.key)];
      newRefs := newRefs[art.key := sid];
    }

    t.history := t.history + [snap.(revision := rev)];
    t.refs := t.refs[snap.id := newRefs];
    t.latestID := snap.id;
    t.revision := rev;
    return None;
  }

  method FindNewest(h: seq<Snapshot>, id: string) returns (r: Option<Snapshot>)
    ensures r == NewestWithId(h, id)
  {
    var i := |h| - 1;
    assert h[..i + 1] == h;
    while i >= 0
      invariant -1 <= i < |h|
      invariant NewestWithId(h, id) == NewestWithId(h[..i + 1], id)
    {
      if h[i].id == id {
        return Some(h[i]);
      }
      assert h[..i + 1][..i] == h[..i];
      i := i - 1;
    }
    return None;
  }

  method ListRecord(h: seq<Snapshot>, beforeRevision: int, limit: int) returns (out: seq<SnapshotMeta>)
    ensures out == Page(h, beforeRevision, limit)
  {
    out := [];
    var i := |h| - 1;
    assert h[..i + 1] == h;
    while i >= 0
      invariant -1 <= i < |h|
      invariant limit > 0 ==> |out| < limit
      invariant out + Older(h[..i + 1], beforeRevision) == Older(h, beforeRevision)
    {
      NextOlder(h, i, beforeRevision, out);
      var s := h[i];
      i := i - 1;
      if beforeRevision > 0 && s.revision >= beforeRevision {
        continue;
      }
      out := out + [MetaOf(s)];
      if limit > 0 && |out| >= limit {
        FullPage(h, i + 1, beforeRevision, limit, out);
        return;
      }
    }
    assert h[..0] == [];
  }

  /** One step back through a history, after these rows were found. */
  lemma NextOlder(h: seq<Snapshot>, i: nat, before: int, out: seq<SnapshotMeta>)
    requires i < |h|
    ensures out + Older(h[..i + 1], before) ==
            (if before > 0 && h[i].revision >= before then out else out + [MetaOf(h[i])]) + Older(h[..i], before)
  {
    OlderSnoc(h[..i], h[i], before);
    assert h[..i + 1] == h[..i] + [h[i]];
    assert out + ([MetaOf(h[i])] + Older(h[..i], before)) == (out + [MetaOf(h[i])]) + Older(h[..i], before);
  }

  lemma FullPage(h: seq<Snapshot>, i: nat, before: int, limit: int, out: seq<SnapshotMeta>)
    requires i <= |h| && 0 < limit == |out| && out + Older(h[..i], before) == Older(h, before)
    ensures out == Page(h, before, limit)
  {
  }

  /** Pruning one record: drop references, mark, sweep, reset the tip. */
  method PruneRecord(t: MemThread, keep: nat)
    requires 0 < keep < |t.history|
    modifies t
    ensures t.Value() == ThreadSpec.Prune(old(t.Value()), keep)
  {
    ghost var before := t.Value();
    var h := SortByRevision(t.history);
    SortKeepsLength(t.history);
    var cut := |h| - keep;
    DropRefs(t, h[..cut]);
    SweptIgnoresOldRefs(before, h[cut..], t.refs);
    KeepOnly(t, h[cut..]);
    PruneFolds(before, keep, h, cut, t.Value());
  }

  lemma SweptIgnoresOldRefs(t: Thread, kept: seq<Snapshot>, refs: map<string, map<string, string>>)
    requires kept != []
    ensures Swept(t.(refs := refs), kept, refs) == Swept(t, kept, refs)
  {
  }

  /** Keeps these checkpoints, whose references are all that is left of the table. */
  method KeepOnly(t: MemThread, kept: seq<Snapshot>)
    requires kept != []
    modifies t
    ensures t.Value() == Swept(old(t.Value()), kept, old(t.refs))
  {
    t.history := kept;
    var live := LiveSessions(t.refs);
    Sweep(t, live);
    t.latestID := t.history[|t.history| - 1].id;
    t.revision := t.history[|t.history| - 1].revision;
  }

  lemma PruneFolds(t: Thread, keep: nat, h: seq<Snapshot>, cut: nat, pruned: Thread)
    requires 0 < keep < |t.history| && h == SortByRevision(t.history) && cut + keep == |h|
    requires pruned == Swept(t, h[cut..], t.refs - Ids(h[..cut]))
    ensures pruned == ThreadSpec.Prune(t, keep)
  {
    SortKeepsLength(t.history);
  }

  method DropRefs(t: MemThread, drop: seq<Snapshot>)
    modifies t`refs
    ensures t.refs == old(t.refs) - Ids(drop)
  {
    assert drop[..0] == [];
    for i := 0 to |drop|
      invariant t.refs == old(t.refs) - Ids(drop[..i])
    {
      t.refs := t.refs - {drop[i].id};
      assert drop[..i + 1] == drop[..i] + [drop[i]];
      IdsSnoc(drop[..i], drop[i]);
    }
    assert drop[..|drop|] == drop;
  }

  /** The mark phase: every session id that a reference names. */
  method LiveSessions(refs: map<string, map<string, string>>) returns (live: set<string>)
    ensures live == Referenced(refs)
  {
    live := {};
    var ids := refs.Keys;
    while ids != {}
      invariant ids <= refs.Keys
      invariant live == set c, a | c in refs && c !in ids && a in refs[c] :: refs[c][a]
      decreases ids
    {
      var c :| c in ids;
      ghost var marked := live;
      var agents := refs[c].Keys;
      while agents != {}
        invariant agents <= refs[c].Keys
        invariant live == marked + set a | a in refs[c] && a !in agents :: refs[c][a]
        decreases agents
      {
        var a :| a in agents;
        live := live + {refs[c][a]};
        agents := agents - {a};
      }
      ids := ids - {c};
    }
  }

  /** The sweep phase: unmarked sessions go, each with its metadata. */
  method Sweep(t: MemThread, live: set<string>)
    modifies t`sessions, t`agentMeta
    ensures t.sessions == LiveOnly(old(t.sessions), live)
    ensures t.agentMeta == LiveMeta(old(t.agentMeta), old(t.sessions), live)
  {
    ghost var sessions, meta := t.sessions, t.agentMeta;
    var todo := t.sessions.Keys;
    while todo != {}
      invariant todo <= sessions.Keys
      invariant t.sessions == map sid | sid in sessions && (sid in todo || sid in live) :: sessions[sid]
      invariant t.agentMeta == map sid | sid in meta && (sid in todo || sid in live || sid !in sessions) :: meta[sid]
      decreases todo
    {
      var sid :| sid in todo;
      if sid !in live {
        t.sessions := t.sessions - {sid};
        t.agentMeta := t.agentMeta - {sid};
      }
      todo := todo - {sid};
    }
  }
}
