/** Newest-first listing of a thread's history (checkpoint/durable_memory.go). */
module Paging {
  import opened ThreadSpec
  import opened ThreadInvariant

  datatype SnapshotMeta = SnapshotMeta(
    id: string, thread: string, node: string, step: int, revision: int, interrupt: bool)

  function MetaOf(s: Snapshot): SnapshotMeta {
    SnapshotMeta(s.id, s.thread, s.node, s.step, s.revision, s.interrupt)
  }

  /** All rows below the bound, newest first; a bound of zero or less means no bound. */
  function Older(h: seq<Snapshot>, before: int): seq<SnapshotMeta> {
    if h == [] then []
    else
      var s := h[|h| - 1];
      (if before > 0 && s.revision >= before then [] else [MetaOf(s)]) + Older(h[..|h| - 1], before)
  }

  lemma OlderSnoc(h: seq<Snapshot>, s: Snapshot, before: int)
    ensures Older(h + [s], before) ==
            (if before > 0 && s.revision >= before then [] else [MetaOf(s)]) + Older(h, before)
  {
    assert (h + [s])[..|h|] == h;
  }

  /** One page; a limit of zero or less means no limit. */
  function Page(h: seq<Snapshot>, before: int, limit: int): seq<SnapshotMeta> {
    var rows := Older(h, before);
    if 0 < limit < |rows| then rows[..limit] else rows
  }

  /** A client that follows pages: call k sees history `views[k]`, and each call asks for
      rows below the last revision it was given, until a page comes back empty. */
  function Follow(views: seq<seq<Snapshot>>, before: int, limit: int): seq<SnapshotMeta> {
    if views == [] then []
    else
      var page := Page(views[0], before, limit);
      if page == [] then [] else page + Follow(views[1..], page[|page| - 1].revision, limit)
  }

  /** Consecutive revisions, as every retained history has them. */
  ghost predicate Consecutive(h: seq<Snapshot>) {
    forall i :: 0 <= i < |h| ==> h[i].revision == h[0].revision + i && h[i].revision >= 1
  }

  lemma RetainedIsConsecutive(t: Thread, log: seq<Entry>, thread: string)
    requires ThreadInv(t, log, thread)
    ensures Consecutive(t.history)
  {
    forall i | 0 <= i < |t.history|
      ensures t.history[i].revision == t.history[0].revision + i && t.history[i].revision >= 1 {
      assert Linked(log, thread, Dropped(t, log) + i) && Linked(log, thread, Dropped(t, log));
    }
  }

  function NewestFirst(h: seq<Snapshot>): (rows: seq<SnapshotMeta>)
    ensures |rows| == |h| && forall i :: 0 <= i < |h| ==> rows[i] == MetaOf(h[|h| - 1 - i])
  {
    seq(|h|, i requires 0 <= i < |h| => MetaOf(h[|h| - 1 - i]))
  }

  lemma NewestFirstCut(h: seq<Snapshot>, n: nat)
    requires n <= |h|
    ensures NewestFirst(h[..n]) == NewestFirst(h)[|h| - n..]
  {
  }

  lemma {:induction false} OlderAll(h: seq<Snapshot>, before: int)
    requires Consecutive(h) && (before <= 0 || (h != [] && before > h[|h| - 1].revision))
    ensures Older(h, before) == NewestFirst(h)
  {
    if |h| > 1 {
      OlderAll(h[..|h| - 1], before);
      assert NewestFirst(h) == [MetaOf(h[|h| - 1])] + NewestFirst(h[..|h| - 1]);
    } else if |h| == 1 {
      assert Older(h[..0], before) == [];
      assert Older(h, before) == [MetaOf(h[0])];
    }
  }

  /** Rows appended later never show up below a bound inside the older history. */
  lemma {:induction false} OlderIgnoresNewer(h: seq<Snapshot>, n: nat, before: int)
    requires Consecutive(h) && n < |h| && before == h[n].revision
    ensures Older(h, before) == Older(h[..n], 0)
  {
    if |h| == n + 1 {
      OlderAll(h[..n], 0);
      if n > 0 { OlderAll(h[..n], before); } else { assert h[..n] == []; }
    } else {
      assert h[..|h| - 1][..n] == h[..n];
      OlderIgnoresNewer(h[..|h| - 1], n, before);
    }
  }

  /** Every later view extends the first one: commits may interleave between pages. */
  ghost predicate Growing(h: seq<Snapshot>, views: seq<seq<Snapshot>>) {
    forall k: nat :: k < |views| ==> Extends(h, views, k)
  }

  ghost predicate Extends(h: seq<Snapshot>, views: seq<seq<Snapshot>>, k: nat)
    requires k < |views|
  {
    h <= views[k] && Consecutive(views[k])
  }

  lemma PageRows(h: seq<Snapshot>, views: seq<seq<Snapshot>>, todo: nat, before: int, limit: int)
    requires views != [] && Growing(h, views) && todo <= |h| && limit > 0
    requires if todo < |h| then before == h[todo].revision else before == 0 && views[0] == h
    ensures Page(views[0], before, limit) == NewestFirst(h[..todo])[..if limit < todo then limit else todo]
  {
    assert Extends(h, views, 0);
    var view := views[0];
    assert view[..todo] == h[..todo];
    if todo < |h| {
      OlderIgnoresNewer(view, todo, before);
    }
    OlderAll(h[..todo], 0);
    assert h[..|h|] == h;
  }

  lemma {:induction false} FollowRest(h: seq<Snapshot>, views: seq<seq<Snapshot>>, todo: nat, before: int, limit: int)
    requires Growing(h, views) && todo <= |h| && limit > 0
    requires if todo < |h| then before == h[todo].revision else before == 0 && views != [] && views[0] == h
    ensures var got := Reach(|views|, limit, todo);
      got <= todo && Follow(views, before, limit) == NewestFirst(h[..todo])[..got]
  {
    if views != [] {
      var n := if limit < todo then limit else todo;
      PageRows(h, views, todo, before, limit);
      if todo > 0 {
        var m := Reach(|views| - 1, limit, todo - n);
        GrowingTail(h, views);
        FollowRest(h, views[1..], todo - n, h[todo - n].revision, limit);
        ReachSteps(|views|, limit, todo, n);
        FollowGlue(h, views, todo, before, limit, n, m);
      }
    }
  }

  lemma FollowGlue(h: seq<Snapshot>, views: seq<seq<Snapshot>>, todo: nat, before: int, limit: int, n: nat, m: nat)
    requires views != [] && 0 < n && n + m <= todo <= |h|
    requires Page(views[0], before, limit) == NewestFirst(h[..todo])[..n]
    requires Follow(views[1..], h[todo - n].revision, limit) == NewestFirst(h[..todo - n])[..m]
    ensures Follow(views, before, limit) == NewestFirst(h[..todo])[..n + m]
  {
    assert NewestFirst(h[..todo])[n - 1] == MetaOf(h[todo - n]);
    NewestSplit(h, todo, n, m);
  }

  lemma GrowingTail(h: seq<Snapshot>, views: seq<seq<Snapshot>>)
    requires Growing(h, views) && views != []
    ensures Growing(h, views[1..])
  {
    forall k: nat | k < |views[1..]| ensures Extends(h, views[1..], k) {
      assert Extends(h, views, k + 1);
    }
  }

  lemma NewestSplit(h: seq<Snapshot>, todo: nat, n: nat, m: nat)
    requires n + m <= todo <= |h|
    ensures NewestFirst(h[..todo])[..n] + NewestFirst(h[..todo - n])[..m] == NewestFirst(h[..todo])[..n + m]
  {
    assert h[..todo][..todo - n] == h[..todo - n];
    NewestFirstCut(h[..todo], todo - n);
  }

  /** How many of `todo` rows that many full pages cover. */
  function Reach(pages: nat, limit: int, todo: nat): (got: nat)
    requires limit > 0
    ensures got <= todo
  {
    if pages == 0 then 0
    else if limit < todo then limit + Reach(pages - 1, limit, todo - limit)
    else todo
  }

  lemma ReachSteps(pages: nat, limit: int, todo: nat, n: nat)
    requires pages > 0 && limit > 0 && n == if limit < todo then limit else todo
    ensures Reach(pages, limit, todo) == n + Reach(pages - 1, limit, todo - n)
  {
  }

  lemma {:induction false} ReachIsMin(pages: nat, limit: int, todo: nat)
    requires limit > 0
    ensures Reach(pages, limit, todo) == if pages * limit < todo then pages * limit else todo
  {
    if pages > 0 {
      assert pages * limit == (pages - 1) * limit + limit;
      assert (pages - 1) * limit >= 0;
      if limit < todo {
        ReachIsMin(pages - 1, limit, todo - limit);
      }
    }
  }

  /** Paging is exact: n calls return the newest `n * limit` rows of the history held at the
      first call, newest first, without gap or repetition, whatever commits interleave;
      so enough calls return all of it and then stop. */
  lemma PagingIsExact(views: seq<seq<Snapshot>>, limit: int)
    requires views != [] && Growing(views[0], views) && limit > 0
    ensures var rows := NewestFirst(views[0]);
      Follow(views, 0, limit) == if |views| * limit < |rows| then rows[..|views| * limit] else rows
  {
    var h := views[0];
    assert h[..|h|] == h;
    FollowRest(h, views, |h|, 0, limit);
    ReachIsMin(|views|, limit, |h|);
  }
}
