/** Session garbage collection over whole lives of a thread (checkpoint/durable_memory.go,
    graph/artifacts.go): commits whose artifacts went through the per-step collector, and
    pruning, in any order. */
module GarbageCollection {
  import opened Artifacts
  import opened ThreadSpec
  import opened ThreadInvariant

  /** `regs` are the registrations a node made in its collector. */
  datatype StoreOp =
    | CommitOp(snap: Snapshot, regs: seq<Artifact>, draw: nat -> string)
    | PruneOp(keep: nat)

  /** A commit draws fresh session ids; a prune keeps at least one checkpoint. */
  ghost predicate Enabled(t: Thread, thread: string, op: StoreOp) {
    match op
    case CommitOp(snap, _, draw) => snap.thread == thread && snap.id != "" && FreshDraw(t, draw)
    case PruneOp(keep) => keep > 0
  }

  function Apply(t: Thread, op: StoreOp): Thread
    requires op.PruneOp? ==> op.keep > 0
  {
    match op
    case CommitOp(snap, regs, draw) => Commit(t, snap, Collect(regs), draw)
    case PruneOp(keep) => Prune(t, keep)
  }

  /** The thread after these operations; one that is not enabled does nothing. */
  ghost function After(thread: string, ops: seq<StoreOp>): Thread {
    if ops == [] then EMPTY_THREAD
    else
      var t, op := After(thread, ops[..|ops| - 1]), ops[|ops| - 1];
      if Enabled(t, thread, op) then Apply(t, op) else t
  }

  lemma EmptyThreadIsExact(thread: string)
    ensures ThreadInv(EMPTY_THREAD, [], thread) && NoOrphans(EMPTY_THREAD)
  {
    assert RefsExact(EMPTY_THREAD, [], thread);
  }

  lemma CommitStaysExact(t: Thread, log: seq<Entry>, thread: string, snap: Snapshot, regs: seq<Artifact>,
                         draw: nat -> string)
    returns (log': seq<Entry>)
    requires ThreadInv(t, log, thread) && NoOrphans(t) && snap.thread == thread && snap.id != "" && FreshDraw(t, draw)
    ensures ThreadInv(Commit(t, snap, Collect(regs), draw), log', thread)
            && NoOrphans(Commit(t, snap, Collect(regs), draw)) && log <= log'
  {
    log' := log;
    if Judge(t, snap).Accepted? {
      AppendKeepsInv(t, log, thread, snap, Collect(regs), draw);
      CollectedSessionsDistinct(regs);
      CommitOrphansIff(t, log, thread, snap, Collect(regs), draw);
      log' := log + [Entry(snap.(revision := t.revision + 1), Collect(regs))];
    }
  }

  /** Exact collection: after any mix of commits (accepted, repeated or conflicting) and
      prunes, the stored sessions are exactly those that some retained checkpoint refers
      to, each with its metadata, and the tables still answer for the whole log. */
  lemma {:induction false} CollectionIsExact(thread: string, ops: seq<StoreOp>) returns (log: seq<Entry>)
    ensures var t := After(thread, ops);
      ThreadInv(t, log, thread) && t.sessions.Keys == Referenced(t.refs) && t.meta.Keys == t.sessions.Keys
  {
    if ops == [] {
      EmptyThreadIsExact(thread);
      log := [];
    } else {
      var before, op := ops[..|ops| - 1], ops[|ops| - 1];
      var was := CollectionIsExact(thread, before);
      var t := After(thread, before);
      log := was;
      if Enabled(t, thread, op) {
        match op
        case CommitOp(snap, regs, draw) => log := CommitStaysExact(t, was, thread, snap, regs, draw);
        case PruneOp(keep) => PruneKeepsInv(t, was, thread, keep);
      }
    }
  }

  /** Pruning leaves every read of a kept checkpoint, and the latest one, as it was. */
  lemma PruneKeepsReads(t: Thread, log: seq<Entry>, thread: string, keep: nat, id: string, agent: string)
    requires ThreadInv(t, log, thread) && keep > 0 && HasId(Prune(t, keep).history, id)
    ensures AgentSession(Prune(t, keep), id, agent) == AgentSession(t, id, agent)
    ensures LatestOf(Prune(t, keep)) == LatestOf(t)
  {
    PruneKeepsInv(t, log, thread, keep);
    LatestIsTip(t, log, thread);
    LatestIsTip(Prune(t, keep), log, thread);
    SuffixKeepsReads(t, Prune(t, keep), log, thread, if |t.history| > keep then |t.history| - keep else 0, id, agent);
  }

  /** Any two tables that are exact for one log answer alike. */
  lemma SuffixKeepsReads(t: Thread, t': Thread, log: seq<Entry>, thread: string, cut: nat, id: string, agent: string)
    requires ThreadInv(t, log, thread) && ThreadInv(t', log, thread)
    requires cut <= |t.history| && t'.history == t.history[cut..] && HasId(t'.history, id)
    ensures AgentSession(t', id, agent) == AgentSession(t, id, agent)
  {
    var i := IndexOf(t'.history, id);
    assert t'.history[i] == t.history[cut..][i] == t.history[cut + i];
    var at := Dropped(t, log) + cut + i + 1;
    RowReads(t, log, thread, cut + i, id, agent, at);
    RowReads(t', log, thread, i, id, agent, at);
  }

  lemma RowReads(t: Thread, log: seq<Entry>, thread: string, i: nat, id: string, agent: string, at: nat)
    requires ThreadInv(t, log, thread) && i < |t.history| && t.history[i].id == id
    requires at == Dropped(t, log) + i + 1
    ensures AgentSession(t, id, agent) == SessionAt(log, at, agent)
  {
    assert RowExact(t, log, thread, i, agent);
  }
}
