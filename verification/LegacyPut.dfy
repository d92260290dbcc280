/** The legacy single-snapshot write on the durable store (checkpoint/durable_memory.go): it
    reads the tip in one critical section and commits in another, so that other commits may
    come in between. */
module LegacyPut {
  import opened Common
  import opened Values
  import opened ThreadSpec
  import opened ThreadInvariant
  import opened DurableMemory

  /** The snapshot a put will commit, linked to the tip it has read. */
  function LinkedTo(t: Thread, snap: Snapshot, newID: string): Snapshot {
    snap.(id := if snap.id == "" then newID else snap.id, parent := t.latest)
  }

  /** Creating the record of a thread is sound and cannot be read. */
  lemma EmptyRecordUnread(view: map<string, Thread>, logs: map<string, seq<Entry>>, id: string)
    requires ViewInv(view, logs)
    ensures var view', logs' := view[id := ThreadOf(view, id)], logs[id := LogOf(logs, id)];
      ViewInv(view', logs') && SameReads(view, view', logs, logs')
  {
    ThreadOfInv(view, logs, id);
    UpdateViewInv(view, logs, id, ThreadOf(view, id), LogOf(logs, id));
  }

  /** The tip of a thread, whose record is created on first use. */
  method ReadTip(store: DurableMemory, thread: string) returns (latest: string)
    requires store.Valid()
    modifies store
    ensures store.Owned() && fresh(store.threads.Values - old(store.threads.Values))
    ensures store.View() == old(store.View())[thread := old(ThreadOf(store.View(), thread))]
    ensures store.logs == old(store.logs)[thread := old(LogOf(store.logs, thread))]
    ensures latest == old(ThreadOf(store.View(), thread)).latest
  {
    ghost var view, logs := store.View(), store.logs;
    store.logs := logs[thread := LogOf(logs, thread)];
    assert store.View() == view;
    var t := store.ThreadLocked(thread);
    return t.latestID;
  }

  /** The first critical section. */
  method LinkToTip(store: DurableMemory, threadID: string, snap: Snapshot, newID: string) returns (linked: Snapshot)
    requires store.Valid()
    modifies store
    ensures store.Valid() && fresh(store.threads.Values - old(store.threads.Values))
    ensures SameReads(old(store.View()), store.View(), old(store.logs), store.logs)
    ensures var s := if threadID != "" then snap.(thread := threadID) else snap;
      linked == LinkedTo(old(ThreadOf(store.View(), s.thread)), s, newID)
  {
    var s := if threadID != "" then snap.(thread := threadID) else snap;
    EmptyRecordUnread(store.View(), store.logs, s.thread);
    if s.id == "" {
      s := s.(id := newID);
    }
    var latest := ReadTip(store, s.thread);
    return s.(parent := latest);
  }

  /** Between its two sections a put of a fresh id fails exactly when the tip has moved. */
  lemma PutConflictsIffTipMoved(read: Thread, now: Thread, snap: Snapshot, newID: string)
    requires !HasId(now.history, LinkedTo(read, snap, newID).id)
    ensures CommitError(now, LinkedTo(read, snap, newID)).Some? <==> now.latest != read.latest
  {
  }

  /** Unlike a commit, a put cannot be retried: once a snapshot with an id of its own was put,
      putting it again conflicts, because it is now linked to itself. */
  lemma PutIsNotIdempotent(t: Thread, log: seq<Entry>, thread: string, snap: Snapshot, draw: nat -> string)
    requires ThreadInv(t, log, thread) && snap.thread == thread && snap.id != "" && !HasId(t.history, snap.id)
             && FreshDraw(t, draw)
    ensures var t' := Commit(t, LinkedTo(t, snap, ""), [], draw);
      CommitError(t', LinkedTo(t', snap, "")) == Some(CheckpointConflict)
  {
    var once := LinkedTo(t, snap, "");
    var t' := Commit(t, once, [], draw);
    var n := |t.history|;
    assert t'.history[n].id == snap.id && t'.history[n].parent == t.latest;
    assert forall k :: 0 <= k < n ==> t'.history[k] == t.history[k];
    LatestIsTip(t, log, thread);
    assert log != [] ==> t.history[n - 1].id == t.latest;
  }

  /** Exactly when an undisturbed put of an id of its own succeeds: if and only if the id is
      not retained, and then it appends, or its first retained checkpoint already has the
      tip for its parent, and then nothing happens although success is reported. */
  lemma PutSucceedsIff(t: Thread, log: seq<Entry>, thread: string, snap: Snapshot, draw: nat -> string)
    requires ThreadInv(t, log, thread) && snap.thread == thread && snap.id != ""
    ensures CommitError(t, LinkedTo(t, snap, "")).None? <==>
            !HasId(t.history, snap.id) || t.history[IndexOf(t.history, snap.id)].parent == t.latest
    ensures !HasId(t.history, snap.id) ==> Judge(t, LinkedTo(t, snap, "")).Accepted?
    ensures HasId(t.history, snap.id) ==> Commit(t, LinkedTo(t, snap, ""), [], draw) == t
  {
    if HasId(t.history, snap.id) {
      var i := Dropped(t, log) + IndexOf(t.history, snap.id);
      assert Linked(log, thread, i);
    }
  }

  /** While no id was ever committed twice the second case cannot occur: a put succeeds if
      and only if its id is not retained. So a retry conflicts, right after the first put or
      after other commits and prunes, until its checkpoint has been pruned; and then it
      appends a second checkpoint of the same id. */
  lemma PutSucceedsIffUnseen(t: Thread, log: seq<Entry>, thread: string, snap: Snapshot)
    requires ThreadInv(t, log, thread) && DistinctIds(log) && snap.id != ""
    ensures CommitError(t, LinkedTo(t, snap, "")).None? <==> !HasId(t.history, snap.id)
  {
    if HasId(t.history, snap.id) {
      var i := Dropped(t, log) + IndexOf(t.history, snap.id);
      assert Linked(log, thread, i) && Linked(log, thread, |log| - 1);
    }
  }

  /** An undisturbed put of a snapshot with this id. */
  function Put(t: Thread, thread: string, id: string): Thread {
    Commit(t, LinkedTo(t, Plain(thread, id), ""), [], k => "")
  }

  function Plain(thread: string, id: string): Snapshot {
    Snapshot(id, "", thread, 0, "", map[], 0, false, Nil)
  }

  lemma PutAppends(t: Thread, thread: string, id: string)
    requires id != "" && !HasId(t.history, id)
    ensures var t' := Put(t, thread, id);
      && t'.latest == id && |t'.history| == |t.history| + 1 && t'.history[..|t.history|] == t.history
      && t'.history[|t.history|].id == id && t'.history[|t.history|].parent == t.latest
      && t'.history[|t.history|].thread == thread && t'.history[|t.history|].revision == t'.revision == t.revision + 1
  {
  }

  lemma OneIsLeft(t: Thread)
    requires |t.history| == 2 && t.history[0].revision <= t.history[1].revision
    ensures Prune(t, 1).history == [t.history[1]] && Prune(t, 1).latest == t.history[1].id
  {
    SortFixesAscending(t.history);
  }

  lemma PutOfTheTipsChild(t: Thread, thread: string, id: string)
    requires t.history != [] && t.history[0].id == id != ""
    requires t.history[0].parent == t.latest && t.history[0].thread == thread
    ensures HasId(t.history, id) && Put(t, thread, id) == t && Judge(t, LinkedTo(t, Plain(thread, id), "")).Repeated?
  {
  }

  /** The second case can be reached by puts and a prune alone: x and a are put, all but a
      is pruned, x is put again, and the next put of a succeeds without a new checkpoint. */
  lemma RepeatedPutCanBeSilent(thread: string)
    ensures var t := Put(Prune(Put(Put(EMPTY_THREAD, thread, "x"), thread, "a"), 1), thread, "x");
      && HasId(t.history, "a") && t.latest == "x"
      && CommitError(t, LinkedTo(t, Plain(thread, "a"), "")).None? && Put(t, thread, "a") == t
  {
    var one := Put(EMPTY_THREAD, thread, "x");
    PutAppends(EMPTY_THREAD, thread, "x");
    var two := Put(one, thread, "a");
    PutAppends(one, thread, "a");
    assert two.history[0] == two.history[..1][0] == one.history[0];
    var left := Prune(two, 1);
    OneIsLeft(two);
    var three := Put(left, thread, "x");
    PutAppends(left, thread, "x");
    assert three.history[0] == three.history[..1][0] == two.history[1];
    PutOfTheTipsChild(three, thread, "a");
  }
}
