/** The in-process lease table and the fenced store (checkpoint/lease_memory.go). Each
    method is one critical section; the injected clock is its `now` parameter. */
module MemoryLease {
  import opened Common
  import opened Artifacts
  import opened ThreadSpec
  import opened LeaseSpec
  import opened DurableMemory

  class MemLeaseState {
    var runID: string
    var epoch: nat
    var expiresAt: int

    constructor ()
      ensures Value() == FREE
    {
      runID, epoch, expiresAt := "", 0, 0;
    }

    ghost function Value(): Lease
      reads this
    {
      Lease(runID, epoch, expiresAt)
    }
  }

  /** A thread without a record has a free lease of epoch zero. */
  ghost function LeaseOf(view: map<string, Lease>, id: string): Lease {
    if id in view then view[id] else FREE
  }

  /** Observably, only the lease of `id` changed, and it became `st`. */
  ghost predicate BecameAt(before: map<string, Lease>, after: map<string, Lease>, id: string, st: Lease) {
    LeaseOf(after, id) == st && forall other :: other != id ==> LeaseOf(after, other) == LeaseOf(before, other)
  }

  class MemoryLease {
    var leases: map<string, MemLeaseState>

    ghost function View(): map<string, Lease>
      reads this, leases.Values
    {
      map id | id in leases :: leases[id].Value()
    }

    /** Records are not shared between threads. */
    ghost predicate Valid()
      reads this
    {
      forall a, b :: a in leases && b in leases && a != b ==> leases[a] != leases[b]
    }

    constructor ()
      ensures Valid() && View() == map[]
    {
      leases := map[];
    }

    method Acquire(ctx: Context, threadID: string, runID: string, ttl: int, now: nat) returns (r: Result<Grant>)
      requires Valid()
      modifies this, leases.Values
      ensures Valid() && fresh(leases.Values - old(leases.Values))
      ensures ctx.Done? ==> r == Err(Cancelled) && View() == old(View())
      ensures ctx.Live? && (threadID == "" || runID == "") ==> r == Err(LeaseLost) && View() == old(View())
      ensures ctx.Live? && threadID != "" && runID != "" ==>
                && r == AcquireResult(LeaseOf(old(View()), threadID), threadID, runID, ttl, now)
                && View() == old(View())[threadID := Acquired(LeaseOf(old(View()), threadID), runID, ttl, now)]
    {
      if ctx.Done? {
        return Err(Cancelled);
      }
      if threadID == "" || runID == "" {
        return Err(LeaseLost);
      }
      var st := Record(threadID);
      label recorded:
      r := AcquireRecord(st, threadID, runID, if ttl <= 0 then DEFAULT_LEASE_TTL else ttl, now);
      OneRecordChanged@recorded(threadID);
      PutTwice(old(View()), threadID, old@recorded(st.Value()), st.Value());
    }

    /** Mutating the record of one thread changes the view at that thread only. */
    twostate lemma OneRecordChanged(id: string)
      requires Valid() && unchanged(`leases) && id in leases
      requires forall other :: other in leases && leases[other] != leases[id] ==> unchanged(leases[other])
      ensures View() == old(View())[id := leases[id].Value()]
    {
      forall other | other in leases && other != id ensures leases[other].Value() == old(leases[other].Value()) {
        assert leases[other] != leases[id];
      }
    }

    method Record(threadID: string) returns (st: MemLeaseState)
      requires Valid()
      modifies this
      ensures Valid() && leases == old(leases)[threadID := st]
      ensures View() == old(View())[threadID := st.Value()] && st.Value() == old(LeaseOf(View(), threadID))
      ensures st in old(leases.Values) || fresh(st)
    {
      if threadID in leases {
        st := leases[threadID];
      } else {
        st := new MemLeaseState();
        leases := leases[threadID := st];
      }
    }

    method Renew(ctx: Context, grant: Grant, ttl: int, now: nat) returns (r: Result<Grant>)
      requires Valid()
      modifies leases.Values
      ensures Valid()
      ensures ctx.Done? ==> r == Err(Cancelled) && View() == old(View())
      ensures ctx.Live? ==> r == RenewResult(LeaseOf(old(View()), grant.thread), grant, ttl, now)
      ensures ctx.Live? ==> BecameAt(old(View()), View(), grant.thread,
                                    Renewed(LeaseOf(old(View()), grant.thread), grant, ttl, now))
    {
      if ctx.Done? {
        return Err(Cancelled);
      }
      var duration := if ttl <= 0 then DEFAULT_LEASE_TTL else ttl;
      if grant.thread !in leases {
        return Err(LeaseLost);
      }
      var st := leases[grant.thread];
      if st.runID != grant.run || st.epoch != grant.epoch || !(st.expiresAt > now) {
        return Err(LeaseLost);
      }
      st.expiresAt := now + duration;
      return Ok(Grant(grant.thread, grant.run, st.epoch, st.expiresAt));
    }

    method Release(ctx: Context, grant: Grant) returns (err: Option<Error>)
      requires Valid()
      modifies leases.Values
      ensures Valid()
      ensures err == if ctx.Done? then Some(Cancelled) else None
      ensures ctx.Done? ==> View() == old(View())
      ensures ctx.Live? ==> BecameAt(old(View()), View(), grant.thread,
                                    Released(LeaseOf(old(View()), grant.thread), grant))
    {
      if ctx.Done? {
        return Some(Cancelled);
      }
      if grant.thread !in leases {
        return None;
      }
      var st := leases[grant.thread];
      if st.runID == grant.run && st.epoch == grant.epoch {
        st.runID := "";
        st.expiresAt := 0;
      }
      return None;
    }

    method ValidateActiveLocked(grant: Grant, now: nat) returns (err: Option<Error>)
      ensures err == if Holds(LeaseOf(View(), grant.thread), grant, now) then None else Some(LeaseLost)
    {
      if grant.thread !in leases {
        return Some(LeaseLost);
      }
      var st := leases[grant.thread];
      if st.runID != grant.run || st.epoch != grant.epoch || !(st.expiresAt > now) {
        return Some(LeaseLost);
      }
      return None;
    }
  }

  method AcquireRecord(st: MemLeaseState, threadID: string, runID: string, ttl: int, now: nat)
      returns (r: Result<Grant>)
    requires runID != "" && ttl > 0
    modifies st
    ensures r == AcquireResult(old(st.Value()), threadID, runID, ttl, now)
    ensures st.Value() == Acquired(old(st.Value()), runID, ttl, now)
  {
    var active := st.runID != "" && st.expiresAt > now;
    if active && st.runID == runID {
      st.expiresAt := now + ttl;
      return Ok(Grant(threadID, runID, st.epoch, st.expiresAt));
    }
    if active {
      return Err(LeaseHeld);
    }
    st.epoch := st.epoch + 1;
    st.runID := runID;
    st.expiresAt := now + ttl;
    return Ok(Grant(threadID, runID, st.epoch, st.expiresAt));
  }

  /** Why a fenced commit is refused, in the order the checks are made. */
  function FenceError(st: Lease, t: Thread, snap: Snapshot, grant: Grant, now: nat): Option<Error> {
    if snap.thread != "" && grant.thread != "" && snap.thread != grant.thread then Some(LeaseLost)
    else if !Holds(st, grant, now) then Some(LeaseLost)
    else if snap.thread == "" then Some(MissingThreadID)
    else if snap.id == "" then Some(MissingCheckpointID)
    else CommitError(t, snap)
  }

  class Fenced {
    const store: DurableMemory
    const lease: MemoryLease

    constructor (store: DurableMemory, lease: MemoryLease)
      ensures this.store == store && this.lease == lease
    {
      this.store, this.lease := store, lease;
    }

    /** Validates the lease and commits in one step. The lease never changes; the store
        changes only when no check failed. */
    method CommitStepFenced(snap: Snapshot, arts: seq<Artifact>, grant: Grant, now: nat, draw: nat -> string)
      returns (err: Option<Error>)
      requires store.Valid() && lease.Valid()
      requires FreshDraw(ThreadOf(store.View(), snap.thread), draw)
      modifies store, store.threads.Values
      ensures store.Valid()
      ensures err == FenceError(LeaseOf(old(lease.View()), grant.thread), ThreadOf(old(store.View()), snap.thread),
                                snap, grant, now)
      ensures err.Some? ==> SameReads(old(store.View()), store.View(), old(store.logs), store.logs)
      ensures err.None? ==>
                && store.View() == CommitView(old(store.View()), snap, arts, draw)
                && store.logs == old(store.logs)[snap.thread :=
                     CommitLog(ThreadOf(old(store.View()), snap.thread), LogOf(old(store.logs), snap.thread), snap,
                               arts)]
    {
      if snap.thread != "" && grant.thread != "" && snap.thread != grant.thread {
        return Some(LeaseLost);
      }
      ghost var view := store.View();
      err := lease.ValidateActiveLocked(grant, now);
      assert store.View() == view;
      if err.None? {
        err := CommitValidated(snap, arts, draw);
      }
    }

    /** The commit once the lease was found valid. */
    method CommitValidated(snap: Snapshot, arts: seq<Artifact>, draw: nat -> string) returns (err: Option<Error>)
      requires store.Valid() && FreshDraw(ThreadOf(store.View(), snap.thread), draw)
      modifies store, store.threads.Values
      ensures store.Valid()
      ensures err == if snap.thread == "" then Some(MissingThreadID)
                     else if snap.id == "" then Some(MissingCheckpointID)
                     else CommitError(ThreadOf(old(store.View()), snap.thread), snap)
      ensures err.Some? ==> SameReads(old(store.View()), store.View(), old(store.logs), store.logs)
      ensures err.None? ==>
                && store.View() == CommitView(old(store.View()), snap, arts, draw)
                && store.logs == old(store.logs)[snap.thread :=
                     CommitLog(ThreadOf(old(store.View()), snap.thread), LogOf(old(store.logs), snap.thread), snap,
                               arts)]
    {
      if snap.thread == "" {
        return Some(MissingThreadID);
      }
      if snap.id == "" {
        return Some(MissingCheckpointID);
      }
      RejectedCommitUnread(store.View(), store.logs, snap, arts, draw);
      err := store.CommitStepLocked(snap, arts, draw);
    }
  }
}
