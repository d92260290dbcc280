/** One thread of the checkpoint store as a value, with the two operations that
    change it (checkpoint/durable_memory.go). */
module ThreadSpec {
  import opened Common
  import opened Values
  import opened Artifacts

  datatype Snapshot = Snapshot(
    id: string, parent: string, thread: string, revision: int,
    node: string, state: State, step: int, interrupt: bool, interruptValue: Value)

  datatype AgentMeta = AgentMeta(thread: string, agent: string)

  datatype Thread = Thread(
    latest: string, revision: int, history: seq<Snapshot>,
    sessions: map<string, Payload>,
    meta: map<string, AgentMeta>,
    refs: map<string, map<string, string>>)

  const EMPTY_THREAD := Thread("", 0, [], map[], map[], map[])

  /** The session tables while one commit is being assembled. */
  datatype Saved = Saved(sessions: map<string, Payload>, meta: map<string, AgentMeta>, refs: map<string, string>)

  /** Stores the session artifacts among `arts[..n]`; the k-th artifact would take the id `draw(k)`. */
  function SaveSessions(base: Saved, thread: string, arts: seq<Artifact>, draw: nat -> string, n: nat): Saved
    requires n <= |arts|
  {
    if n == 0 then base
    else
      var p := SaveSessions(base, thread, arts, draw, n - 1);
      var a := arts[n - 1];
      if !IsSession(a) then p
      else
        var sid := draw(n - 1);
        Saved(p.sessions[sid := a.payload], p.meta[sid := AgentMeta(thread, a.key)], p.refs[a.key := sid])
  }

  function ParentRefs(t: Thread, parent: string): map<string, string> {
    if parent != "" && parent in t.refs then t.refs[parent] else map[]
  }

  function Append(t: Thread, snap: Snapshot, arts: seq<Artifact>, draw: nat -> string): Thread {
    var s := SaveSessions(Saved(t.sessions, t.meta, ParentRefs(t, snap.parent)), snap.thread, arts, draw, |arts|);
    Thread(snap.id, t.revision + 1, t.history + [snap.(revision := t.revision + 1)],
           s.sessions, s.meta, t.refs[snap.id := s.refs])
  }

  predicate HasId(h: seq<Snapshot>, id: string) {
    exists i :: 0 <= i < |h| && h[i].id == id
  }

  /** Position of the first snapshot with this id. */
  function IndexOf(h: seq<Snapshot>, id: string): (i: nat)
    requires HasId(h, id)
    ensures i < |h| && h[i].id == id
    ensures forall j :: 0 <= j < i ==> h[j].id != id
  {
    if h[0].id == id then 0
    else
      assert forall j :: 0 < j < |h| ==> h[j] == h[1..][j - 1];
      1 + IndexOf(h[1..], id)
  }

  datatype Verdict = Accepted | Repeated | Conflicting

  /** How the compare-and-set on the parent judges a commit. */
  function Judge(t: Thread, snap: Snapshot): Verdict {
    if HasId(t.history, snap.id) then
      var e := t.history[IndexOf(t.history, snap.id)];
      if e.parent == snap.parent && e.thread == snap.thread then Repeated else Conflicting
    else if t.latest != snap.parent then Conflicting
    else Accepted
  }

  function Commit(t: Thread, snap: Snapshot, arts: seq<Artifact>, draw: nat -> string): Thread {
    if Judge(t, snap).Accepted? then Append(t, snap, arts, draw) else t
  }

  function CommitError(t: Thread, snap: Snapshot): Option<Error> {
    if Judge(t, snap).Conflicting? then Some(CheckpointConflict) else None
  }

  /** Random ids: pairwise distinct and not in use in this thread. */
  ghost predicate FreshDraw(t: Thread, draw: nat -> string) {
    && (forall i, j :: i != j ==> draw(i) != draw(j))
    && (forall i :: draw(i) !in t.sessions && draw(i) !in t.meta)
  }

  function InsertByRevision(h: seq<Snapshot>, s: Snapshot): seq<Snapshot> {
    if h == [] || h[|h| - 1].revision <= s.revision then h + [s]
    else InsertByRevision(h[..|h| - 1], s) + [h[|h| - 1]]
  }

  /** Stable sort by revision. */
  function SortByRevision(h: seq<Snapshot>): seq<Snapshot> {
    if h == [] then [] else InsertByRevision(SortByRevision(h[..|h| - 1]), h[|h| - 1])
  }

  function Ids(h: seq<Snapshot>): set<string> {
    set i | 0 <= i < |h| :: h[i].id
  }

  /** The session ids some retained checkpoint points at. */
  function Referenced(refs: map<string, map<string, string>>): set<string> {
    set c, a | c in refs && a in refs[c] :: refs[c][a]
  }

  /** The thread with this history and these references, swept of every session that no
      reference names; metadata goes only with the session it describes. */
  function Swept(t: Thread, kept: seq<Snapshot>, refs: map<string, map<string, string>>): Thread
    requires kept != []
  {
    var tip := kept[|kept| - 1];
    Thread(tip.id, tip.revision, kept,
           LiveOnly(t.sessions, Referenced(refs)), LiveMeta(t.meta, t.sessions, Referenced(refs)), refs)
  }

  function LiveOnly(sessions: map<string, Payload>, live: set<string>): map<string, Payload> {
    map sid | sid in sessions && sid in live :: sessions[sid]
  }

  function LiveMeta(meta: map<string, AgentMeta>, sessions: map<string, Payload>, live: set<string>)
    : map<string, AgentMeta>
  {
    map sid | sid in meta && (sid in live || sid !in sessions) :: meta[sid]
  }

  /** Keeps the newest `keep` checkpoints and drops the sessions no kept one refers to. */
  function Prune(t: Thread, keep: nat): Thread
    requires keep > 0
  {
    if |t.history| <= keep then t
    else
      var h := SortByRevision(t.history);
      SortKeepsLength(t.history);
      var cut := |h| - keep;
      Swept(t, h[cut..], t.refs - Ids(h[..cut]))
  }

  lemma {:induction false} InsertKeepsLength(h: seq<Snapshot>, s: Snapshot)
    ensures |InsertByRevision(h, s)| == |h| + 1
  {
    if h != [] && h[|h| - 1].revision > s.revision {
      InsertKeepsLength(h[..|h| - 1], s);
    }
  }

  lemma {:induction false} SortKeepsLength(h: seq<Snapshot>)
    ensures |SortByRevision(h)| == |h|
  {
    if h != [] {
      SortKeepsLength(h[..|h| - 1]);
      InsertKeepsLength(SortByRevision(h[..|h| - 1]), h[|h| - 1]);
    }
  }

  lemma {:induction false} SortFixesAscending(h: seq<Snapshot>)
    requires forall i, j :: 0 <= i < j < |h| ==> h[i].revision <= h[j].revision
    ensures SortByRevision(h) == h
  {
    if h != [] {
      SortFixesAscending(h[..|h| - 1]);
      assert h == h[..|h| - 1] + [h[|h| - 1]];
    }
  }

  function FindById(t: Thread, id: string): Option<Snapshot> {
    if HasId(t.history, id) then Some(t.history[IndexOf(t.history, id)]) else None
  }

  function NewestWithId(h: seq<Snapshot>, id: string): Option<Snapshot> {
    if h == [] then None
    else if h[|h| - 1].id == id then Some(h[|h| - 1])
    else NewestWithId(h[..|h| - 1], id)
  }

  function LatestOf(t: Thread): Option<Snapshot> {
    if t.latest == "" then None else NewestWithId(t.history, t.latest)
  }

  /** The messages recorded for an agent at a retained checkpoint. */
  function AgentSession(t: Thread, id: string, agent: string): Option<Payload> {
    if id in t.refs && agent in t.refs[id] && t.refs[id][agent] in t.sessions
    then Some(t.sessions[t.refs[id][agent]]) else None
  }
}
