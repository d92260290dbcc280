/** What one run among many can rely on: its commits as long as it renews in time, and the
    checkpoint it said it expects (graph/builder.go, checkpoint/lease_memory.go). */
module TakeoverRuns {
  import opened Common
  import opened ThreadSpec
  import opened ThreadInvariant
  import opened LeaseSpec
  import opened Heartbeat
  import opened Takeover
  import opened TakeoverProofs

  // ------------------------------------------------------------- renewing in time

  /** Action k is the acquisition that granted this run its lease. */
  ghost predicate GrantedAt(cfg: Config, actions: seq<Action>, k: nat, run: string) {
    && k < |actions| && actions[k].Acquire? && actions[k].run == run
    && run !in Execution(cfg, actions[..k]).runners && run in Execution(cfg, actions[..k + 1]).runners
  }

  predicate Renews(a: Action, run: string) {
    a.Renew? && a.run == run
  }

  predicate Releases(a: Action, run: string) {
    a.Release? && a.run == run
  }

  ghost predicate ClockAscends(cfg: Config, actions: seq<Action>, k: nat) {
    forall i :: k <= i < |actions| && actions[i].SetClock? ==> Execution(cfg, actions[..i]).now <= actions[i].time
  }

  /** A lifetime after the acquisition, or after the last renewal this run has asked for. */
  ghost function Expiry(cfg: Config, actions: seq<Action>, k: nat, run: string): int
    requires k < |actions| && actions[k].Acquire?
    decreases |actions|
  {
    var before, a := actions[..|actions| - 1], actions[|actions| - 1];
    if |actions| == k + 1 || Renews(a, run) then Execution(cfg, before).now + Ttl(a.ttl)
    else Expiry(cfg, before, k, run)
  }

  /** The run never released, and asked for each renewal before its lease ran out. */
  ghost predicate RenewedInTime(cfg: Config, actions: seq<Action>, k: nat, run: string)
    requires k < |actions| && actions[k].Acquire?
    decreases |actions|
  {
    var before, a := actions[..|actions| - 1], actions[|actions| - 1];
    |actions| > k + 1 ==>
      && RenewedInTime(cfg, before, k, run) && !Releases(a, run)
      && (Renews(a, run) ==> Execution(cfg, before).now < Expiry(cfg, before, k, run))
  }

  ghost predicate Holding(s: Sys, run: string) {
    run in s.runners && Holds(s.lease, s.runners[run].grant, s.now)
  }

  /** When the lease of a holder runs out after this action. */
  function ExpiryAfter(a: Action, run: string, now: nat, expiry: int): int {
    if Renews(a, run) then now + Ttl(a.ttl) else expiry
  }

  /** This account of a run's renewals says when it holds the lease, and until when. */
  ghost predicate Accounted(s: Sys, run: string, inTime: bool, expiry: int) {
    && run in s.runners
    && (Holding(s, run) <==> inTime && s.now < expiry)
    && (Holding(s, run) ==> s.lease.expiresAt == expiry)
  }

  lemma NewLeaseIsAnothers(cfg: Config, s: Sys, a: Action, run: string)
    requires LeaseOk(cfg, s) && run in s.runners && a.Acquire?
    ensures var s' := Step(cfg, s, a);
      && run in s'.runners && s'.now == s.now && s'.runners[run] == s.runners[run]
      && (s'.lease == s.lease || (!Active(s.lease, s.now) && s'.lease.runID != run))
  {
  }

  lemma RenewalMovesTheExpiry(cfg: Config, s: Sys, a: Action, run: string)
    requires LeaseOk(cfg, s) && run in s.runners && a.Renew?
    ensures var s' := Step(cfg, s, a);
      && run in s'.runners && s'.now == s.now
      && (Holding(s', run) <==> Holding(s, run))
      && (Holding(s', run) ==> s'.lease.expiresAt == ExpiryAfter(a, run, s.now, s.lease.expiresAt))
  {
    assert RunnerOk(cfg.thread, s.owners, run, s.runners[run].grant);
    if a.run in s.runners {
      assert RunnerOk(cfg.thread, s.owners, a.run, s.runners[a.run].grant);
    }
  }

  lemma ReleaseEndsTheHolding(cfg: Config, s: Sys, a: Action, run: string)
    requires LeaseOk(cfg, s) && run in s.runners && a.Release?
    ensures var s' := Step(cfg, s, a);
      && run in s'.runners && s'.now == s.now
      && (Holding(s', run) <==> Holding(s, run) && !Releases(a, run))
      && (Holding(s', run) ==> s'.lease == s.lease)
  {
    assert RunnerOk(cfg.thread, s.owners, run, s.runners[run].grant);
    if a.run in s.runners {
      assert RunnerOk(cfg.thread, s.owners, a.run, s.runners[a.run].grant);
    }
  }

  lemma OtherActionsLeaveTheLease(cfg: Config, s: Sys, a: Action, run: string)
    requires run in s.runners && !a.Acquire? && !a.Renew? && !a.Release?
    ensures var s' := Step(cfg, s, a);
      && run in s'.runners && s'.lease == s.lease && s'.runners[run].grant == s.runners[run].grant
      && s'.now == if a.SetClock? then a.time else s.now
  {
  }

  /** One action of anyone: a run holds the lease after it exactly if it did before, did not
      release it, and its expiry is still ahead. */
  lemma HoldingGoesOn(cfg: Config, s: Sys, a: Action, run: string, inTime: bool, expiry: int)
    requires LeaseOk(cfg, s) && (a.SetClock? ==> s.now <= a.time) && Accounted(s, run, inTime, expiry)
    ensures Accounted(Step(cfg, s, a), run, inTime && !Releases(a, run) && (Renews(a, run) ==> s.now < expiry),
                      ExpiryAfter(a, run, s.now, expiry))
  {
    if a.Acquire? {
      NewLeaseIsAnothers(cfg, s, a, run);
      assert RunnerOk(cfg.thread, s.owners, run, s.runners[run].grant);
    } else if a.Renew? {
      RenewalMovesTheExpiry(cfg, s, a, run);
    } else if a.Release? {
      ReleaseEndsTheHolding(cfg, s, a, run);
    } else {
      OtherActionsLeaveTheLease(cfg, s, a, run);
    }
  }

  lemma OneActionMore(cfg: Config, actions: seq<Action>, k: nat, run: string)
    requires k + 1 < |actions| && actions[k].Acquire?
    ensures var before, a := actions[..|actions| - 1], actions[|actions| - 1];
      var s, expiry := Execution(cfg, before), Expiry(cfg, before, k, run);
      && Execution(cfg, actions) == Step(cfg, s, a)
      && Expiry(cfg, actions, k, run) == ExpiryAfter(a, run, s.now, expiry)
      && (RenewedInTime(cfg, actions, k, run) <==>
           RenewedInTime(cfg, before, k, run) && !Releases(a, run) && (Renews(a, run) ==> s.now < expiry))
  {
  }

  lemma GrantedHolds(cfg: Config, actions: seq<Action>, k: nat, run: string)
    requires GrantedAt(cfg, actions, k, run) && |actions| == k + 1
    ensures Accounted(Execution(cfg, actions), run, true, Expiry(cfg, actions, k, run))
  {
    EveryExecutionKeepsInv(cfg, actions[..k]);
    assert actions[..k + 1] == actions;
  }

  /** Exactly when a run still holds its lease, whatever every other run does in between:
      while the clock does not go back, if and only if it has not released it, each renewal
      came before a lifetime had passed since the one before, and so does this instant. */
  lemma {:induction false} HoldsIffRenewedInTime(cfg: Config, actions: seq<Action>, k: nat, run: string)
    requires GrantedAt(cfg, actions, k, run) && ClockAscends(cfg, actions, k)
    ensures Accounted(Execution(cfg, actions), run, RenewedInTime(cfg, actions, k, run), Expiry(cfg, actions, k, run))
    decreases |actions|
  {
    if |actions| == k + 1 {
      GrantedHolds(cfg, actions, k, run);
    } else {
      var before, a := actions[..|actions| - 1], actions[|actions| - 1];
      GrantedBefore(cfg, actions, k, run);
      HoldsIffRenewedInTime(cfg, before, k, run);
      EveryExecutionKeepsInv(cfg, before);
      OneActionMore(cfg, actions, k, run);
      HoldingGoesOn(cfg, Execution(cfg, before), a, run, RenewedInTime(cfg, before, k, run),
                    Expiry(cfg, before, k, run));
    }
  }

  lemma GrantedBefore(cfg: Config, actions: seq<Action>, k: nat, run: string)
    requires GrantedAt(cfg, actions, k, run) && ClockAscends(cfg, actions, k) && k + 1 < |actions|
    ensures var before, a := actions[..|actions| - 1], actions[|actions| - 1];
      && GrantedAt(cfg, before, k, run) && ClockAscends(cfg, before, k)
      && (a.SetClock? ==> Execution(cfg, before).now <= a.time)
  {
    var before := actions[..|actions| - 1];
    assert before[..k] == actions[..k] && before[..k + 1] == actions[..k + 1];
    assert forall i :: k <= i < |before| ==> before[..i] == actions[..i];
  }

  /** So the fence lets a computed step through exactly as long as its run renews in time;
      then it is accepted, but for a fresh invocation of a thread that had a history. */
  lemma CommitsIffRenewedInTime(cfg: Config, actions: seq<Action>, k: nat, run: string, id: string)
    requires GrantedAt(cfg, actions, k, run) && ClockAscends(cfg, actions, k) && cfg.thread != ""
    requires var s := Execution(cfg, actions);
      run in s.runners && s.runners[run].phase.Computed? && id != "" && !HasId(s.thread.history, id)
    ensures var s := Execution(cfg, actions);
      CommitVerdict(cfg, s, run, id) ==
        if !(RenewedInTime(cfg, actions, k, run) && s.now < Expiry(cfg, actions, k, run)) then Some(LeaseLost)
        else if s.runners[run].clean then None
        else Some(CheckpointConflict)
  {
    HoldsIffRenewedInTime(cfg, actions, k, run);
    if Holding(Execution(cfg, actions), run) {
      ValidCommitsNeverConflict(cfg, actions, run, id);
    }
  }

  // ------------------------------------------------------------- the heartbeat among many runs

  /** The instants of this run's renewals since action k. */
  ghost function Beats(cfg: Config, actions: seq<Action>, k: nat, run: string): seq<nat>
    requires k < |actions|
    decreases |actions|
  {
    if |actions| == k + 1 then []
    else
      var before, a := actions[..|actions| - 1], actions[|actions| - 1];
      Beats(cfg, before, k, run) + if Renews(a, run) then [Execution(cfg, before).now] else []
  }

  /** The run keeps to one lifetime and does not release. */
  predicate Steady(actions: seq<Action>, k: nat, run: string, ttl: int)
    requires k < |actions| && actions[k].Acquire?
  {
    && Ttl(actions[k].ttl) == ttl
    && forall i :: k < i < |actions| ==>
         !Releases(actions[i], run) && (Renews(actions[i], run) ==> Ttl(actions[i].ttl) == ttl)
  }

  lemma OneBeatMore(cfg: Config, actions: seq<Action>, k: nat, run: string)
    requires k + 1 < |actions|
    ensures var before, a := actions[..|actions| - 1], actions[|actions| - 1];
      Beats(cfg, actions, k, run) ==
        if Renews(a, run) then Beats(cfg, before, k, run) + [Execution(cfg, before).now] else Beats(cfg, before, k, run)
  {
  }

  lemma GapsSnoc(start: nat, ttl: int, beats: seq<nat>, beat: nat)
    ensures GapsBelow(start, ttl, beats + [beat], |beats| + 1) <==>
            GapsBelow(start, ttl, beats, |beats|) && beat < LastBeat(start, beats, |beats|) + ttl
  {
    var all := beats + [beat];
    assert forall k: nat :: k < |beats| ==> (GapBelow(start, ttl, all, k) <==> GapBelow(start, ttl, beats, k));
    assert GapBelow(start, ttl, all, |beats|) <==> beat < LastBeat(start, beats, |beats|) + ttl;
  }

  /** The heartbeat's notion of short gaps is the one that counts among many runs. */
  lemma {:induction false} RenewedInTimeIffGapsBelow(cfg: Config, actions: seq<Action>, k: nat, run: string, ttl: int)
    requires k < |actions| && actions[k].Acquire? && Steady(actions, k, run, ttl)
    ensures var start, beats := Execution(cfg, actions[..k]).now, Beats(cfg, actions, k, run);
      && (RenewedInTime(cfg, actions, k, run) <==> GapsBelow(start, ttl, beats, |beats|))
      && Expiry(cfg, actions, k, run) == LastBeat(start, beats, |beats|) + ttl
    decreases |actions|
  {
    if |actions| > k + 1 {
      var n := |actions| - 1;
      var before := actions[..n];
      assert before[..k] == actions[..k];
      RenewedInTimeIffGapsBelow(cfg, before, k, run, ttl);
      OneActionMore(cfg, actions, k, run);
      OneBeatMore(cfg, actions, k, run);
      if Renews(actions[n], run) {
        GapsSnoc(Execution(cfg, actions[..k]).now, ttl, Beats(cfg, before, k, run), Execution(cfg, before).now);
      }
    }
  }

  /** The heartbeat does its work: a run whose renewals land like the ticker's, each less
      than `ttl - interval` late, and that commits within a lifetime of the last one, is
      never fenced off, however many others try to take the thread over. */
  lemma HeartbeatCarriesCommits(cfg: Config, actions: seq<Action>, k: nat, run: string, id: string, ttl: int,
                                lates: seq<nat>)
    requires GrantedAt(cfg, actions, k, run) && ClockAscends(cfg, actions, k) && cfg.thread != ""
    requires var s := Execution(cfg, actions);
      run in s.runners && s.runners[run].phase.Computed? && id != "" && !HasId(s.thread.history, id)
    requires ttl >= 4 && Steady(actions, k, run, ttl)
    requires var start, beats := Execution(cfg, actions[..k]).now, Beats(cfg, actions, k, run);
      && beats == Landings(start, ttl, lates)
      && (forall j :: 0 <= j < |lates| ==> lates[j] < ttl - HeartbeatInterval(ttl))
      && Execution(cfg, actions).now < LastBeat(start, beats, |beats|) + ttl
    ensures var s := Execution(cfg, actions);
      CommitVerdict(cfg, s, run, id) == if s.runners[run].clean then None else Some(CheckpointConflict)
  {
    var start, beats := Execution(cfg, actions[..k]).now, Beats(cfg, actions, k, run);
    LandingsHaveShortGaps(start, ttl, lates);
    RenewedInTimeIffGapsBelow(cfg, actions, k, run, ttl);
    CommitsIffRenewedInTime(cfg, actions, k, run, id);
  }

  // ------------------------------------------------------------- the expected checkpoint

  /** Entry i is this run's first commit. */
  ghost predicate FirstCommit(s: Sys, run: string, i: nat) {
    i < |s.log| == |s.writers| && s.writers[i] == run && run !in s.writers[..i]
  }

  predicate Expects(r: Runner, id: string) {
    r.task.Continue? && r.task.expected == id != ""
  }

  /** Before its first commit a run that expects a checkpoint works from it, and its first
      commit has it for a parent. */
  ghost predicate ExpectationKept(s: Sys, run: string, id: string)
    requires run in s.runners
  {
    Expects(s.runners[run], id) ==>
      && (run !in s.writers ==> WorksFrom(s.runners[run].phase, id))
      && (forall i: nat :: FirstCommit(s, run, i) ==> s.log[i].snap.parent == id)
  }

  predicate WorksFrom(phase: Phase, id: string) {
    (phase.Ready? ==> phase.parent == id) && (phase.Computed? ==> phase.parent == id)
  }

  lemma StrangersNeverWrote(cfg: Config, s: Sys, run: string)
    requires LeaseOk(cfg, s) && run !in s.runners
    ensures run !in s.writers
  {
  }

  /** A commit adds one entry, made by the run it names. */
  lemma CommitKeepsExpectation(cfg: Config, s: Sys, other: string, cid: string, draw: nat -> string, run: string,
                               id: string)
    requires Inv(cfg, s) && run in s.runners && ExpectationKept(s, run, id)
    requires other in s.runners && s.runners[other].phase.Computed?
    ensures ExpectationKept(DoCommit(cfg, s, other, cid, draw), run, id)
  {
    CommitWrites(cfg, s, other, cid, draw);
    WrittenExpectation(s, DoCommit(cfg, s, other, cid, draw), other, run, id);
  }

  /** A commit attempt writes nothing, or one entry of its run under the parent it works from. */
  ghost predicate Written(s: Sys, s': Sys, other: string)
    requires other in s.runners && s.runners[other].phase.Computed?
  {
    var r, n := s.runners[other], |s.log|;
    && s'.runners.Keys == s.runners.Keys && s'.runners[other].task == r.task
    && (forall run :: run in s.runners && run != other ==> s'.runners[run] == s.runners[run])
    && if s'.log == s.log then s'.writers == s.writers && s'.runners[other].phase.Halted?
       else
         && |s'.log| == n + 1 && s'.log[..n] == s.log && s'.log[n].snap.parent == r.phase.parent
         && s'.writers == s.writers + [other]
  }

  lemma CommitWrites(cfg: Config, s: Sys, other: string, cid: string, draw: nat -> string)
    requires other in s.runners && s.runners[other].phase.Computed?
    ensures Written(s, DoCommit(cfg, s, other, cid, draw), other)
  {
  }

  lemma WrittenExpectation(s: Sys, s': Sys, other: string, run: string, id: string)
    requires other in s.runners && s.runners[other].phase.Computed? && |s.writers| == |s.log|
    requires run in s.runners && ExpectationKept(s, run, id) && Written(s, s', other)
    ensures run in s'.runners && ExpectationKept(s', run, id)
  {
    if Expects(s.runners[run], id) {
      forall i: nat | FirstCommit(s', run, i) ensures s'.log[i].snap.parent == id {
        FirstCommitBefore(s, s', other, run, i);
      }
    }
  }

  lemma FirstCommitBefore(s: Sys, s': Sys, other: string, run: string, i: nat)
    requires other in s.runners && s.runners[other].phase.Computed? && |s.writers| == |s.log|
    requires Written(s, s', other) && FirstCommit(s', run, i)
    ensures i < |s.log| ==> FirstCommit(s, run, i) && s'.log[i] == s.log[i]
    ensures i == |s.log| ==> run == other && run !in s.writers && s'.log != s.log
  {
    if i < |s.log| {
      assert s'.writers[..i] == s.writers[..i];
      assert s'.log != s.log ==> s'.log[i] == s'.log[..|s.log|][i];
    }
  }

  lemma NewcomersExpect(cfg: Config, s: Sys, a: Action, run: string, id: string)
    requires LeaseOk(cfg, s) && run !in s.runners && run in Step(cfg, s, a).runners
    ensures ExpectationKept(Step(cfg, s, a), run, id)
  {
    StrangersNeverWrote(cfg, s, run);
    assert Step(cfg, s, a).runners[run].phase.Granted? && Step(cfg, s, a).writers == s.writers;
  }

  lemma StepKeepsExpectation(cfg: Config, s: Sys, a: Action, run: string, id: string)
    requires Inv(cfg, s) && run in Step(cfg, s, a).runners && (run in s.runners ==> ExpectationKept(s, run, id))
    ensures ExpectationKept(Step(cfg, s, a), run, id)
  {
    if run !in s.runners {
      NewcomersExpect(cfg, s, a, run, id);
    } else if a.Commit? && a.run in s.runners && s.runners[a.run].phase.Computed? {
      CommitKeepsExpectation(cfg, s, a.run, a.id, a.draw, run, id);
    } else {
      OthersKeepExpectation(cfg, s, a, run, id);
    }
  }

  lemma OthersKeepExpectation(cfg: Config, s: Sys, a: Action, run: string, id: string)
    requires Inv(cfg, s) && run in s.runners && ExpectationKept(s, run, id)
    requires a.Commit? ==> !(a.run in s.runners && s.runners[a.run].phase.Computed?)
    ensures ExpectationKept(Step(cfg, s, a), run, id)
  {
    var s' := Step(cfg, s, a);
    NothingWritten(cfg, s, a);
    PhasesWorkFrom(cfg, s, a, run, id);
    forall i: nat | FirstCommit(s', run, i) ensures FirstCommit(s, run, i) {
    }
  }

  lemma NothingWritten(cfg: Config, s: Sys, a: Action)
    requires a.Commit? ==> !(a.run in s.runners && s.runners[a.run].phase.Computed?)
    ensures Step(cfg, s, a).log == s.log && Step(cfg, s, a).writers == s.writers
  {
  }

  /** Loading enters at the expected checkpoint or halts; executing keeps the parent. */
  lemma PhasesWorkFrom(cfg: Config, s: Sys, a: Action, run: string, id: string)
    requires StoreOk(cfg, s) && run in s.runners
    requires a.Commit? ==> !(a.run in s.runners && s.runners[a.run].phase.Computed?)
    ensures run in Step(cfg, s, a).runners && Step(cfg, s, a).runners[run].task == s.runners[run].task
    ensures Expects(s.runners[run], id) && WorksFrom(s.runners[run].phase, id) ==>
            WorksFrom(Step(cfg, s, a).runners[run].phase, id)
  {
  }

  lemma {:induction false} ExpectationsAreKept(cfg: Config, actions: seq<Action>, run: string, id: string)
    requires run in Execution(cfg, actions).runners
    ensures ExpectationKept(Execution(cfg, actions), run, id)
    decreases |actions|
  {
    if actions != [] {
      var before := actions[..|actions| - 1];
      EveryExecutionKeepsInv(cfg, before);
      if run in Execution(cfg, before).runners {
        ExpectationsAreKept(cfg, before, run, id);
      }
      StepKeepsExpectation(cfg, Execution(cfg, before), actions[|actions| - 1], run, id);
    }
  }

  /** Naming the expected checkpoint closes the window between deciding to resume and the
      first commit: in every execution, the first commit of a run that expects a checkpoint
      comes directly after that very checkpoint, with nothing committed in between. */
  lemma FirstCommitFollowsTheExpected(cfg: Config, actions: seq<Action>, run: string, i: nat)
    requires var s := Execution(cfg, actions);
      run in s.runners && s.runners[run].task.Continue? && s.runners[run].task.expected != "" && FirstCommit(s, run, i)
    ensures var s := Execution(cfg, actions);
      var expected := s.runners[run].task.expected;
      i > 0 && s.log[i].snap.parent == expected && s.log[i - 1].snap.id == expected
  {
    var s := Execution(cfg, actions);
    ExpectationsAreKept(cfg, actions, run, s.runners[run].task.expected);
    EveryExecutionKeepsInv(cfg, actions);
    assert Linked(s.log, cfg.thread, i);
  }
}
