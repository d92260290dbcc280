/** The renewal heartbeat that keeps a lease alive during long nodes (graph/builder.go). */
module Heartbeat {
  import opened Common
  import opened LeaseSpec

  const MILLISECOND := 1_000_000

  /** The ticker period derived from a positive lease lifetime. */
  function HeartbeatInterval(ttl: int): int
    requires ttl > 0
  {
    var third := if ttl / 3 <= 0 then MILLISECOND else ttl / 3;
    var max := ttl / 2;
    if max > 0 && third >= max then
      (if max - MILLISECOND <= 0 then MILLISECOND else max - MILLISECOND)
    else third
  }

  /** The design asks for a positive period below half the lifetime; the code delivers it
      exactly for lifetimes of at least four nanoseconds, where it is a third. */
  lemma IntervalBelowHalfIff(ttl: int)
    requires ttl > 0
    ensures 0 < HeartbeatInterval(ttl)
    ensures HeartbeatInterval(ttl) < ttl / 2 <==> ttl >= 4
    ensures ttl >= 4 ==> HeartbeatInterval(ttl) == ttl / 3
  {
    if ttl >= 4 {
      assert ttl / 3 < ttl / 2 by {
        assert 6 * (ttl / 3) <= 2 * ttl && 2 * ttl < 6 * (ttl / 2) + 4;
        if ttl < 8 {
          assert ttl == 4 || ttl == 5 || ttl == 6 || ttl == 7;
        }
      }
    }
  }

  // ------------------------------------------------------------- any renewal instants

  /** The last of the first n renewals, or the acquisition before them all. */
  function LastBeat(start: nat, beats: seq<nat>, n: nat): nat
    requires n <= |beats|
  {
    if n == 0 then start else beats[n - 1]
  }

  /** The lease after the first n renewals of `g`, each at its own instant. */
  function AfterBeats(st: Lease, g: Grant, ttl: int, beats: seq<nat>, n: nat): Lease
    requires n <= |beats|
  {
    if n == 0 then st else Renewed(AfterBeats(st, g, ttl, beats, n - 1), g, ttl, beats[n - 1])
  }

  predicate GapBelow(start: nat, ttl: int, beats: seq<nat>, k: nat)
    requires k < |beats|
  {
    beats[k] < LastBeat(start, beats, k) + ttl
  }

  /** Every renewal comes less than a lifetime after the one before it. */
  ghost predicate GapsBelow(start: nat, ttl: int, beats: seq<nat>, n: nat)
    requires n <= |beats|
  {
    forall k: nat :: k < n ==> GapBelow(start, ttl, beats, k)
  }

  /** Renewal k succeeds. */
  predicate Succeeds(st: Lease, g: Grant, ttl: int, beats: seq<nat>, k: nat)
    requires k < |beats|
  {
    RenewResult(AfterBeats(st, g, ttl, beats, k), g, ttl, beats[k]).Ok?
  }

  /** Whatever instants the renewals land at, all of them succeed if and only if no gap
      between two of them reaches a lifetime; then the epoch never changes. */
  lemma {:induction false} RenewalsSucceedIff(st: Lease, g: Grant, start: nat, ttl: int, beats: seq<nat>, n: nat)
    requires ttl > 0 && st == Lease(g.run, g.epoch, start + ttl) && n <= |beats|
    ensures (forall k: nat :: k < n ==> Succeeds(st, g, ttl, beats, k)) <==> GapsBelow(start, ttl, beats, n)
    ensures GapsBelow(start, ttl, beats, n) ==>
      AfterBeats(st, g, ttl, beats, n) == Lease(g.run, g.epoch, LastBeat(start, beats, n) + ttl)
  {
    if n > 0 {
      RenewalsSucceedIff(st, g, start, ttl, beats, n - 1);
      if GapsBelow(start, ttl, beats, n - 1) {
        assert Succeeds(st, g, ttl, beats, n - 1) <==> GapBelow(start, ttl, beats, n - 1);
      }
    }
  }

  /** No other run can take this lease at this instant. */
  ghost predicate RefusesOthers(lease: Lease, run: string, t: nat) {
    forall thread, other, d :: other != run && other != "" ==>
      AcquireResult(lease, thread, other, d, t) == Err(LeaseHeld) && Acquired(lease, other, d, t) == lease
  }

  /** The lease in force after n renewals refuses every other run from the last of them
      until the next one, and for a whole lifetime after the very last one. */
  ghost predicate HeldThroughout(st: Lease, g: Grant, start: nat, ttl: int, beats: seq<nat>) {
    forall n: nat, t: nat :: n <= |beats| && LastBeat(start, beats, n) <= t < LastBeat(start, beats, n) + ttl ==>
      RefusesOthers(AfterBeats(st, g, ttl, beats, n), g.run, t)
  }

  lemma HeldWhileGapsAreShort(st: Lease, g: Grant, start: nat, ttl: int, beats: seq<nat>)
    requires ttl > 0 && g.run != "" && st == Lease(g.run, g.epoch, start + ttl) && GapsBelow(start, ttl, beats, |beats|)
    ensures HeldThroughout(st, g, start, ttl, beats)
  {
    forall n: nat, t: nat | n <= |beats| && LastBeat(start, beats, n) <= t < LastBeat(start, beats, n) + ttl
      ensures RefusesOthers(AfterBeats(st, g, ttl, beats, n), g.run, t)
    {
      RenewalsSucceedIff(st, g, start, ttl, beats, n);
    }
  }

  // ------------------------------------------------------------- the ticker's schedule

  /** The ticker keeps its phase: tick k falls due k + 1 periods after the start, and its
      renewal lands `lates[k]` later, so that one on time may follow a late one at once. */
  function Landings(start: nat, ttl: int, lates: seq<nat>): (beats: seq<nat>)
    requires ttl > 0
    ensures |beats| == |lates|
  {
    IntervalBelowHalfIff(ttl);
    seq(|lates|, k requires 0 <= k < |lates| => start + Due(HeartbeatInterval(ttl), k) + lates[k])
  }

  function Due(interval: nat, k: nat): nat {
    if k == 0 then interval else Due(interval, k - 1) + interval
  }

  lemma LandingsHaveShortGaps(start: nat, ttl: int, lates: seq<nat>)
    requires ttl >= 4 && forall k :: 0 <= k < |lates| ==> lates[k] < ttl - HeartbeatInterval(ttl)
    ensures GapsBelow(start, ttl, Landings(start, ttl, lates), |lates|)
  {
    IntervalBelowHalfIff(ttl);
    var beats := Landings(start, ttl, lates);
    forall k: nat | k < |beats| ensures GapBelow(start, ttl, beats, k) {
      assert Due(HeartbeatInterval(ttl), k) ==
        (if k == 0 then 0 else Due(HeartbeatInterval(ttl), k - 1)) + HeartbeatInterval(ttl);
    }
  }

  /** If every renewal lands less than `ttl - interval` after its tick, every renewal
      succeeds, the epoch never changes, and at no instant can another run acquire the
      lease, however long the node runs. */
  lemma HeartbeatKeepsLease(st: Lease, g: Grant, start: nat, ttl: int, lates: seq<nat>)
    requires ttl >= 4 && g.run != "" && st == Lease(g.run, g.epoch, start + ttl)
    requires forall k :: 0 <= k < |lates| ==> lates[k] < ttl - HeartbeatInterval(ttl)
    ensures var beats := Landings(start, ttl, lates);
      && (forall k: nat :: k < |beats| ==> Succeeds(st, g, ttl, beats, k))
      && AfterBeats(st, g, ttl, beats, |beats|) == Lease(g.run, g.epoch, LastBeat(start, beats, |beats|) + ttl)
      && HeldThroughout(st, g, start, ttl, beats)
  {
    var beats := Landings(start, ttl, lates);
    LandingsHaveShortGaps(start, ttl, lates);
    RenewalsSucceedIff(st, g, start, ttl, beats, |beats|);
    HeldWhileGapsAreShort(st, g, start, ttl, beats);
  }

  /** The engine's own heartbeat after a fresh acquisition. */
  lemma AcquireThenHeartbeat(free: Lease, thread: string, run: string, start: nat, ttl: int, lates: seq<nat>)
    requires ttl >= 4 && run != "" && !Active(free, start)
    requires forall k :: 0 <= k < |lates| ==> lates[k] < ttl - HeartbeatInterval(ttl)
    ensures var st, g := Acquired(free, run, ttl, start), AcquireResult(free, thread, run, ttl, start).value;
      var beats := Landings(start, ttl, lates);
      && AfterBeats(st, g, ttl, beats, |beats|) == Lease(run, free.epoch + 1, LastBeat(start, beats, |beats|) + ttl)
      && HeldThroughout(st, g, start, ttl, beats)
  {
    HeartbeatKeepsLease(Acquired(free, run, ttl, start), AcquireResult(free, thread, run, ttl, start).value, start,
                        ttl, lates);
  }
}
