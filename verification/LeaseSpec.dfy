/** One thread's execution lease as a value (checkpoint/lease_memory.go), and what holds
    over every history of operations on it. Times and durations are in nanoseconds;
    zero is the zero time. */
module LeaseSpec {
  import opened Common

  datatype Lease = Lease(runID: string, epoch: nat, expiresAt: int)
  datatype Grant = Grant(thread: string, run: string, epoch: nat, expiresAt: int)

  const FREE := Lease("", 0, 0)
  const DEFAULT_LEASE_TTL := 30_000_000_000

  function Ttl(ttl: int): (d: int)
    ensures d > 0
  {
    if ttl <= 0 then DEFAULT_LEASE_TTL else ttl
  }

  predicate Active(st: Lease, now: nat) {
    st.runID != "" && st.expiresAt > now
  }

  /** The grant is the current owner's and has not expired. */
  predicate Holds(st: Lease, g: Grant, now: nat) {
    st.runID == g.run && st.epoch == g.epoch && st.expiresAt > now
  }

  function Acquired(st: Lease, run: string, ttl: int, now: nat): Lease {
    if run == "" then st
    else if Active(st, now) then (if st.runID == run then st.(expiresAt := now + Ttl(ttl)) else st)
    else Lease(run, st.epoch + 1, now + Ttl(ttl))
  }

  function AcquireResult(st: Lease, thread: string, run: string, ttl: int, now: nat): Result<Grant> {
    if run == "" then Err(LeaseLost)
    else if Active(st, now) && st.runID != run then Err(LeaseHeld)
    else
      var st' := Acquired(st, run, ttl, now);
      Ok(Grant(thread, run, st'.epoch, st'.expiresAt))
  }

  function Renewed(st: Lease, g: Grant, ttl: int, now: nat): Lease {
    if Holds(st, g, now) then st.(expiresAt := now + Ttl(ttl)) else st
  }

  function RenewResult(st: Lease, g: Grant, ttl: int, now: nat): Result<Grant> {
    if Holds(st, g, now) then Ok(g.(expiresAt := now + Ttl(ttl))) else Err(LeaseLost)
  }

  function Released(st: Lease, g: Grant): Lease {
    if st.runID == g.run && st.epoch == g.epoch then Lease("", st.epoch, 0) else st
  }

  // ---------------------------------------------------------------- histories

  datatype LeaseOp =
    | Acquire(run: string, ttl: int)
    | Renew(grant: Grant, ttl: int)
    | Release(grant: Grant)
    | SetClock(now: nat)

  datatype Clocked = Clocked(lease: Lease, now: nat)

  function LeaseStep(s: Clocked, op: LeaseOp): Clocked {
    match op
    case Acquire(run, ttl) => s.(lease := Acquired(s.lease, run, ttl, s.now))
    case Renew(g, ttl) => s.(lease := Renewed(s.lease, g, ttl, s.now))
    case Release(g) => s.(lease := Released(s.lease, g))
    case SetClock(now) => s.(now := now)
  }

  function LeaseRun(s: Clocked, ops: seq<LeaseOp>): Clocked
    decreases ops
  {
    if ops == [] then s else LeaseRun(LeaseStep(s, ops[0]), ops[1..])
  }

  /** The grants that the acquisitions of a history returned, in order. */
  function Issued(s: Clocked, ops: seq<LeaseOp>): seq<Grant>
    decreases ops
  {
    if ops == [] then []
    else
      var rest := Issued(LeaseStep(s, ops[0]), ops[1..]);
      match ops[0]
      case Acquire(run, ttl) =>
        (match AcquireResult(s.lease, "", run, ttl, s.now)
         case Ok(g) => [g] + rest
         case Err(_) => rest)
      case _ => rest
  }

  ghost predicate ClockNeverGoesBack(s: Clocked, ops: seq<LeaseOp>)
    decreases ops
  {
    ops == [] || ((ops[0].SetClock? ==> s.now <= ops[0].now) && ClockNeverGoesBack(LeaseStep(s, ops[0]), ops[1..]))
  }

  /** Under a monotone clock a grant that once fails validation (expired, released or
      superseded) is never valid again, whatever operations anyone performs. */
  lemma {:induction false} DeadGrantsStayDead(s: Clocked, ops: seq<LeaseOp>, g: Grant)
    requires ClockNeverGoesBack(s, ops)
    requires g.epoch <= s.lease.epoch && !Holds(s.lease, g, s.now)
    ensures !Holds(LeaseRun(s, ops).lease, g, LeaseRun(s, ops).now)
    decreases ops
  {
    if ops != [] {
      DeadGrantsStayDead(LeaseStep(s, ops[0]), ops[1..], g);
    }
  }

  /** A free lease carries the zero expiry. */
  predicate FreeIsZero(st: Lease) {
    st.runID == "" ==> st.expiresAt == 0
  }

  /** No clock reading can make this grant valid: it was superseded or released. */
  predicate Gone(st: Lease, g: Grant) {
    g.epoch < st.epoch || (g.epoch == st.epoch && !(st.runID == g.run && st.expiresAt > 0))
  }

  /** A superseded or released grant stays dead under any clock, even one that jumps back. */
  lemma {:induction false} GoneGrantsStayDead(s: Clocked, ops: seq<LeaseOp>, g: Grant)
    requires FreeIsZero(s.lease) && Gone(s.lease, g)
    ensures var s' := LeaseRun(s, ops);
      FreeIsZero(s'.lease) && Gone(s'.lease, g) && !Holds(s'.lease, g, s'.now)
    decreases ops
  {
    if ops != [] {
      GoneGrantsStayDead(LeaseStep(s, ops[0]), ops[1..], g);
    }
  }

  /** Exactly when a dead grant can come back to life: some operations make it valid again
      if and only if it is still the recorded owner and has merely expired. That takes a
      clock that jumps back; a released or superseded grant never returns. */
  lemma DeadGrantRevivesIff(s: Clocked, g: Grant)
    requires FreeIsZero(s.lease) && g.epoch <= s.lease.epoch && !Holds(s.lease, g, s.now)
    ensures (exists ops :: Holds(LeaseRun(s, ops).lease, g, LeaseRun(s, ops).now)) <==>
      s.lease.runID == g.run && s.lease.epoch == g.epoch && s.lease.expiresAt > 0
  {
    if s.lease.runID == g.run && s.lease.epoch == g.epoch && s.lease.expiresAt > 0 {
      assert LeaseRun(s, [SetClock(0)]) == LeaseRun(LeaseStep(s, SetClock(0)), []);
      assert Holds(LeaseRun(s, [SetClock(0)]).lease, g, LeaseRun(s, [SetClock(0)]).now);
    } else {
      forall ops ensures !Holds(LeaseRun(s, ops).lease, g, LeaseRun(s, ops).now) {
        GoneGrantsStayDead(s, ops, g);
      }
    }
  }

  /** Epochs never decrease, whatever the clock does, and a superseded epoch is inert:
      renewing or releasing it changes nothing and it never validates. */
  lemma {:induction false} EpochsNeverDecrease(s: Clocked, ops: seq<LeaseOp>, g: Grant)
    requires g.epoch < s.lease.epoch
    ensures var s' := LeaseRun(s, ops);
      && s.lease.epoch <= s'.lease.epoch
      && (forall now: nat, ttl :: Renewed(s'.lease, g, ttl, now) == s'.lease && !Holds(s'.lease, g, now))
      && Released(s'.lease, g) == s'.lease
    decreases ops
  {
    if ops != [] {
      EpochsNeverDecrease(LeaseStep(s, ops[0]), ops[1..], g);
    }
  }

  predicate Owned(st: Lease) {
    st.runID != ""
  }

  lemma {:induction false} IssuedLater(s: Clocked, ops: seq<LeaseOp>)
    ensures forall k :: 0 <= k < |Issued(s, ops)| ==>
      var g := Issued(s, ops)[k];
      g.epoch > s.lease.epoch || (g.epoch == s.lease.epoch && g.run == s.lease.runID && Owned(s.lease))
    decreases ops
  {
    if ops != [] {
      IssuedLater(LeaseStep(s, ops[0]), ops[1..]);
    }
  }

  /** Over any history the issued epochs ascend, and an epoch is only ever issued again to
      the very run it was first issued to: one epoch, one owner. */
  lemma {:induction false} EpochNamesOneRun(s: Clocked, ops: seq<LeaseOp>, i: nat, j: nat)
    requires i < j < |Issued(s, ops)|
    ensures var gi, gj := Issued(s, ops)[i], Issued(s, ops)[j];
      gi.epoch <= gj.epoch && (gi.epoch == gj.epoch ==> gi.run == gj.run)
    decreases ops
  {
    var s', rest := LeaseStep(s, ops[0]), Issued(LeaseStep(s, ops[0]), ops[1..]);
    IssuedLater(s', ops[1..]);
    if Issued(s, ops) == rest {
      EpochNamesOneRun(s', ops[1..], i, j);
    } else if i > 0 {
      EpochNamesOneRun(s', ops[1..], i - 1, j - 1);
    }
  }
}
