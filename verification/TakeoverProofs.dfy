/** Every execution of the many-runner system keeps its invariant, and what follows. */
module TakeoverProofs {
  import opened Common
  import opened Values
  import opened ThreadSpec
  import opened ThreadInvariant
  import opened LeaseSpec
  import opened EngineSpec
  import opened History
  import opened HistoryFacts
  import opened Transparency
  import opened Takeover

  /** Only the current holder's grant can validate. */
  lemma ValidGrantIsHolders(cfg: Config, s: Sys, run: string)
    requires LeaseOk(cfg, s) && run in s.runners && Holds(s.lease, s.runners[run].grant, s.now)
    ensures s.lease.runID == run && s.lease.epoch == s.runners[run].grant.epoch
            && s.runners[run].grant.thread == cfg.thread
  {
    assert RunnerOk(cfg.thread, s.owners, run, s.runners[run].grant);
  }

  lemma NewOwner(cfg: Config, s: Sys, run: string, r: Runner, lease: Lease)
    requires LeaseOk(cfg, s) && run !in s.runners && run != ""
    requires lease.runID == run && lease.epoch == s.lease.epoch + 1 == r.grant.epoch && r.grant.run == run
             && r.grant.thread == cfg.thread
    ensures var owners, runners := s.owners + [run], s.runners[run := r];
      && OwnersOk(lease, owners) && RunnersOk(cfg.thread, owners, runners)
      && TagsOk(s.tags, lease.epoch) && WritersOk(s.tags, s.writers, owners)
  {
    var owners, runners := s.owners + [run], s.runners[run := r];
    forall other | other in runners ensures RunnerOk(cfg.thread, owners, other, runners[other].grant) {
      if other != run { assert RunnerOk(cfg.thread, s.owners, other, s.runners[other].grant); }
    }
  }

  lemma AcquireKeepsInv(cfg: Config, s: Sys, run: string, task: Task, ttl: int)
    requires Inv(cfg, s)
    ensures Inv(cfg, DoAcquire(s, cfg.thread, run, task, ttl))
  {
    var s' := DoAcquire(s, cfg.thread, run, task, ttl);
    if run != "" && run !in s.runners && AcquireResult(s.lease, cfg.thread, run, ttl, s.now).Ok? {
      assert s.lease.runID != run;
      NewOwner(cfg, s, run, s'.runners[run], s'.lease);
    }
  }

  lemma SameGrants(cfg: Config, s: Sys, run: string, r: Runner)
    requires LeaseOk(cfg, s) && run in s.runners && RunnerOk(cfg.thread, s.owners, run, r.grant)
    ensures RunnersOk(cfg.thread, s.owners, s.runners[run := r])
  {
    var runners := s.runners[run := r];
    forall other | other in runners ensures RunnerOk(cfg.thread, s.owners, other, runners[other].grant) {
      assert other != run ==> RunnerOk(cfg.thread, s.owners, other, s.runners[other].grant);
    }
  }

  lemma RenewKeepsLease(cfg: Config, s: Sys, run: string, ttl: int)
    requires LeaseOk(cfg, s) && run in s.runners && Holds(s.lease, s.runners[run].grant, s.now)
    ensures var r := s.runners[run];
      var r' := r.(grant := r.grant.(expiresAt := s.now + Ttl(ttl)));
      DoRenew(s, run, ttl).runners == s.runners[run := r'] && LeaseOk(cfg, DoRenew(s, run, ttl))
  {
    var r := s.runners[run];
    assert RunnerOk(cfg.thread, s.owners, run, r.grant);
    SameGrants(cfg, s, run, r.(grant := r.grant.(expiresAt := s.now + Ttl(ttl))));
  }

  lemma RenewKeepsInv(cfg: Config, s: Sys, run: string, ttl: int)
    requires Inv(cfg, s) && run in s.runners
    ensures Inv(cfg, DoRenew(s, run, ttl))
  {
    if Holds(s.lease, s.runners[run].grant, s.now) {
      RenewKeepsLease(cfg, s, run, ttl);
      ValidGrantIsHolders(cfg, s, run);
      assert RunnerOk(cfg.thread, s.owners, run, s.runners[run].grant);
      HolderUnmoved(cfg, s, DoRenew(s, run, ttl));
    }
  }

  /** The holder still fits if nothing but its expiry or another runner changed. */
  lemma HolderUnmoved(cfg: Config, s: Sys, s': Sys)
    requires HolderOk(cfg, s) && s'.lease.runID == s.lease.runID != "" && s'.lease.runID in s'.runners
    requires s'.log == s.log && s'.origin == s.origin && s'.thread == s.thread
    requires var r, r' := s.runners[s.lease.runID], s'.runners[s.lease.runID];
      r'.phase == r.phase && r'.task == r.task && r'.cmd == r.cmd && r'.clean == r.clean
    ensures HolderOk(cfg, s')
  {
  }

  lemma ReleaseKeepsInv(cfg: Config, s: Sys, grant: Grant)
    requires Inv(cfg, s)
    ensures Inv(cfg, s.(lease := Released(s.lease, grant)))
  {
    var s' := s.(lease := Released(s.lease, grant));
    if s'.lease.runID != "" {
      HolderUnmoved(cfg, s, s');
    }
  }

  /** Moving one runner to another phase is safe if the phase fits whenever it holds the lease. */
  lemma PhaseKeepsInv(cfg: Config, s: Sys, run: string, phase: Phase, cmd: Command)
    requires Inv(cfg, s) && run in s.runners
    requires s.lease.runID == run ==> Fits(cfg, s, s.runners[run].(phase := phase, cmd := cmd))
    ensures Inv(cfg, SetPhase(s, run, phase, cmd))
  {
    var s' := SetPhase(s, run, phase, cmd);
    assert RunnerOk(cfg.thread, s.owners, run, s.runners[run].grant);
    SameGrants(cfg, s, run, s'.runners[run]);
    HolderAfterPhase(cfg, s, run, phase, cmd);
  }

  lemma HolderAfterPhase(cfg: Config, s: Sys, run: string, phase: Phase, cmd: Command)
    requires HolderOk(cfg, s) && run in s.runners
    requires s.lease.runID == run ==> Fits(cfg, s, s.runners[run].(phase := phase, cmd := cmd))
    ensures HolderOk(cfg, SetPhase(s, run, phase, cmd))
  {
    if s.lease.runID != "" && s.lease.runID != run {
      HolderUnmoved(cfg, s, SetPhase(s, run, phase, cmd));
    }
  }

  lemma TipFromStore(cfg: Config, s: Sys)
    requires ThreadInv(s.thread, s.log, cfg.thread)
    ensures s.log == [] <==> LatestOf(s.thread).None?
    ensures s.log == [] <==> s.thread.latest == ""
    ensures s.log != [] ==>
      var snap := LatestOf(s.thread).value;
      && snap.id == s.thread.latest
      && Tip(cfg.g, s.origin, Recs(s.log)) == Cursor(snap.node, snap.state, snap.step)
      && TipInterrupted(Recs(s.log)) == snap.interrupt
  {
    LatestIsTip(s.thread, s.log, cfg.thread);
  }

  lemma LoadFits(cfg: Config, s: Sys, r: Runner, r': Runner)
    requires StoreOk(cfg, s) && Fits(cfg, s, r) && r.phase.Granted?
    requires r' == r.(phase := LoadedPhase(cfg, s.thread, r.task),
                      cmd := if r.task.Continue? then r.task.cmd else PLAIN)
    ensures Fits(cfg, s, r')
  {
    TipFromStore(cfg, s);
    if r.task.Fresh? {
      MergedNothing(r.task.input, cfg.g.reducers);
    }
  }

  lemma LoadKeepsInv(cfg: Config, s: Sys, run: string)
    requires Inv(cfg, s) && run in s.runners && s.runners[run].phase.Granted?
    ensures Inv(cfg, DoLoad(cfg, s, run))
  {
    var r := s.runners[run];
    var phase, cmd := LoadedPhase(cfg, s.thread, r.task), if r.task.Continue? then r.task.cmd else PLAIN;
    if s.lease.runID == run {
      assert r.grant.run == run && run != "" by { assert RunnerOk(cfg.thread, s.owners, run, r.grant); }
      LoadFits(cfg, s, r, r.(phase := phase, cmd := cmd));
    }
    PhaseKeepsInv(cfg, s, run, phase, cmd);
  }

  lemma ExecuteFits(cfg: Config, s: Sys, r: Runner, r': Runner)
    requires StoreOk(cfg, s) && Fits(cfg, s, r) && r.phase.Ready?
    requires r' == r.(phase := ExecutedPhase(cfg.g, s.thread, r.phase.parent, r.phase.cursor, r.phase.resume))
    ensures Fits(cfg, s, r')
  {
    if r.clean {
      TipSessions(s.thread, s.log, cfg.thread);
      TipFromStore(cfg, s);
      assert s.log == [] ==> Recs(s.log) == [];
      assert SeenSessions(s.thread, r.phase.parent) == SessionsOf(Recs(s.log));
    }
  }

  lemma ExecuteKeepsInv(cfg: Config, s: Sys, run: string)
    requires Inv(cfg, s) && run in s.runners && s.runners[run].phase.Ready?
    ensures Inv(cfg, DoExecute(cfg, s, run))
  {
    var r := s.runners[run];
    var phase := ExecutedPhase(cfg.g, s.thread, r.phase.parent, r.phase.cursor, r.phase.resume);
    if s.lease.runID == run {
      assert r.grant.run == run && run != "" by { assert RunnerOk(cfg.thread, s.owners, run, r.grant); }
      ExecuteFits(cfg, s, r, r.(phase := phase));
      assert r.(phase := phase) == r.(phase := phase, cmd := r.cmd);
    }
    PhaseKeepsInv(cfg, s, run, phase, r.cmd);
  }

  /** A fenced commit that goes through was made by the holder, from the tip. */
  lemma AcceptedCommitIsHolders(cfg: Config, s: Sys, run: string, id: string)
    requires Inv(cfg, s) && run in s.runners && s.runners[run].phase.Computed?
    requires id != "" && !HasId(s.thread.history, id) && CommitVerdict(cfg, s, run, id).None?
    ensures s.lease.runID == run != "" && s.runners[run].clean && s.runners[run].phase.parent == s.thread.latest
    ensures s.lease.epoch == s.runners[run].grant.epoch >= 1 && cfg.thread != ""
  {
    ValidGrantIsHolders(cfg, s, run);
    TipFromStore(cfg, s);
    assert RunnerOk(cfg.thread, s.owners, run, s.runners[run].grant);
  }

  /** The new store after an accepted commit. */
  lemma CommitKeepsStore(cfg: Config, s: Sys, run: string, id: string, draw: nat -> string)
    requires StoreOk(cfg, s) && run in s.runners && s.runners[run].phase.Computed? && FreshDraw(s.thread, draw)
    requires id != "" && !HasId(s.thread.history, id) && CommitVerdict(cfg, s, run, id).None?
    requires cfg.thread != "" && s.runners[run].phase.parent == s.thread.latest && Aligned(cfg, s, s.runners[run])
    ensures var s' := DoCommit(cfg, s, run, id, draw);
      StoreOk(cfg, s') && s'.thread.latest == id && Recs(s'.log) == Recs(s.log) + [s.runners[run].phase.rec]
  {
    var r := s.runners[run];
    var snap, rec := SnapOf(r.phase.rec, id, r.phase.parent, cfg.thread), r.phase.rec;
    var s' := DoCommit(cfg, s, run, id, draw);
    AppendKeepsInv(s.thread, s.log, cfg.thread, snap, rec.arts, draw);
    RecsSnoc(s.log, Entry(snap.(revision := s.thread.revision + 1), rec.arts));
    assert s.log == [] ==> Recs(s.log) == [];
    LawfulSnoc(cfg.g, Origin(s, r), Recs(s.log), s.cmds, r.cmd, rec);
  }

  lemma TagsSnoc(tags: seq<nat>, epoch: nat)
    requires TagsOk(tags, epoch) && epoch >= 1
    ensures TagsOk(tags + [epoch], epoch)
  {
    assert forall i :: 0 <= i < |tags| ==> tags[i] <= epoch;
  }

  lemma WritersSnoc(tags: seq<nat>, writers: seq<string>, owners: seq<string>, epoch: nat, run: string)
    requires WritersOk(tags, writers, owners) && 1 <= epoch <= |owners| && owners[epoch - 1] == run
    ensures WritersOk(tags + [epoch], writers + [run], owners)
  {
  }

  lemma RecsSnoc(log: seq<Entry>, e: Entry)
    ensures Recs(log + [e]) == Recs(log) + [RecOf(e)]
  {
  }

  lemma CommittedFits(cfg: Config, s: Sys, s': Sys, r: Runner, r': Runner, id: string)
    requires r.clean && r.phase.Computed? && Recs(s'.log) == Recs(s.log) + [r.phase.rec] && s'.thread.latest == id
    requires var rec := r.phase.rec;
      r' == r.(cmd := PLAIN,
               phase := if rec.interrupt then Halted else Ready(id, Cursor(rec.node, rec.state, rec.step), Nil))
    ensures Fits(cfg, s', r')
  {
    if !r.phase.rec.interrupt {
      ContinueFrom(cfg.g, Origin(s', r'), Recs(s.log), r.phase.rec);
    }
  }

  lemma CommitKeepsLease(cfg: Config, s: Sys, run: string, id: string, draw: nat -> string)
    requires LeaseOk(cfg, s) && run in s.runners && s.runners[run].phase.Computed?
             && CommitVerdict(cfg, s, run, id).None?
    requires s.lease.epoch == s.runners[run].grant.epoch >= 1
    ensures LeaseOk(cfg, DoCommit(cfg, s, run, id, draw))
  {
    var s' := DoCommit(cfg, s, run, id, draw);
    assert RunnerOk(cfg.thread, s.owners, run, s.runners[run].grant);
    SameGrants(cfg, s, run, s'.runners[run]);
    TagsSnoc(s.tags, s.lease.epoch);
    WritersSnoc(s.tags, s.writers, s.owners, s.lease.epoch, run);
  }

  lemma CommitKeepsInv(cfg: Config, s: Sys, run: string, id: string, draw: nat -> string)
    requires Inv(cfg, s) && run in s.runners && s.runners[run].phase.Computed? && FreshDraw(s.thread, draw)
    requires id != "" && !HasId(s.thread.history, id)
    ensures Inv(cfg, DoCommit(cfg, s, run, id, draw))
  {
    if CommitVerdict(cfg, s, run, id).Some? {
      PhaseKeepsInv(cfg, s, run, Halted, PLAIN);
    } else {
      AcceptedCommitIsHolders(cfg, s, run, id);
      CommitKeepsStore(cfg, s, run, id, draw);
      var s' := DoCommit(cfg, s, run, id, draw);
      CommitKeepsLease(cfg, s, run, id, draw);
      CommittedFits(cfg, s, s', s.runners[run], s'.runners[run], id);
    }
  }

  lemma PruneKeepsSys(cfg: Config, s: Sys, keep: nat)
    requires Inv(cfg, s) && keep > 0
    ensures Inv(cfg, s.(thread := ThreadSpec.Prune(s.thread, keep)))
  {
    PruneKeepsInv(s.thread, s.log, cfg.thread, keep);
  }

  // ------------------------------------------------------------- one action of anyone

  lemma LeaseStepKeepsInv(cfg: Config, s: Sys, a: Action)
    requires Inv(cfg, s) && (a.SetClock? || a.Acquire? || a.Renew? || a.Release?)
    ensures Inv(cfg, Step(cfg, s, a))
  {
    match a
    case SetClock(time) => if s.lease.runID != "" { HolderUnmoved(cfg, s, s.(now := time)); }
    case Acquire(run, task, ttl) => AcquireKeepsInv(cfg, s, run, task, ttl);
    case Renew(run, ttl) => if run in s.runners { RenewKeepsInv(cfg, s, run, ttl); }
    case Release(run) => if run in s.runners { ReleaseKeepsInv(cfg, s, s.runners[run].grant); }
  }

  lemma RunnerStepKeepsInv(cfg: Config, s: Sys, a: Action)
    requires Inv(cfg, s) && (a.Load? || a.Execute? || a.Halt?)
    ensures Inv(cfg, Step(cfg, s, a))
  {
    match a
    case Load(run) => if run in s.runners && s.runners[run].phase.Granted? { LoadKeepsInv(cfg, s, run); }
    case Execute(run) => if run in s.runners && s.runners[run].phase.Ready? { ExecuteKeepsInv(cfg, s, run); }
    case Halt(run) => if run in s.runners { PhaseKeepsInv(cfg, s, run, Halted, PLAIN); }
  }

  lemma StoreStepKeepsInv(cfg: Config, s: Sys, a: Action)
    requires Inv(cfg, s) && (a.Commit? || a.Prune?)
    ensures Inv(cfg, Step(cfg, s, a))
  {
    match a
    case Commit(run, id, draw) =>
      if run in s.runners && s.runners[run].phase.Computed? && id != "" && !HasId(s.thread.history, id)
        && FreshDraw(s.thread, draw) {
        CommitKeepsInv(cfg, s, run, id, draw);
      }
    case Prune(keep) => if keep > 0 { PruneKeepsSys(cfg, s, keep); }
  }

  lemma StepKeepsInv(cfg: Config, s: Sys, a: Action)
    requires Inv(cfg, s)
    ensures Inv(cfg, Step(cfg, s, a))
  {
    if a.Commit? || a.Prune? {
      StoreStepKeepsInv(cfg, s, a);
    } else if a.Load? || a.Execute? || a.Halt? {
      RunnerStepKeepsInv(cfg, s, a);
    } else {
      LeaseStepKeepsInv(cfg, s, a);
    }
  }

  lemma {:induction false} EveryExecutionKeepsInv(cfg: Config, actions: seq<Action>)
    ensures Inv(cfg, Execution(cfg, actions))
    decreases |actions|
  {
    if actions == [] {
      assert RefsExact(EMPTY_THREAD, [], cfg.thread);
      assert Recs([]) == [];
    } else {
      EveryExecutionKeepsInv(cfg, actions[..|actions| - 1]);
      StepKeepsInv(cfg, Execution(cfg, actions[..|actions| - 1]), actions[|actions| - 1]);
    }
  }

  // ------------------------------------------------------------ main theorems

  /** In every execution, a computed step whose grant is still valid when it commits is
      accepted: the parent is always the store's tip. The one exception is exact: a fresh
      invocation of a thread that already had a history gets the conflict error. */
  lemma ValidCommitsNeverConflict(cfg: Config, actions: seq<Action>, run: string, id: string)
    requires var s := Execution(cfg, actions);
      && run in s.runners && s.runners[run].phase.Computed? && Holds(s.lease, s.runners[run].grant, s.now)
      && cfg.thread != "" && id != "" && !HasId(s.thread.history, id)
    ensures var s := Execution(cfg, actions);
      CommitVerdict(cfg, s, run, id) == if s.runners[run].clean then None else Some(CheckpointConflict)
  {
    var s := Execution(cfg, actions);
    EveryExecutionKeepsInv(cfg, actions);
    ValidGrantIsHolders(cfg, s, run);
    assert RunnerOk(cfg.thread, s.owners, run, s.runners[run].grant);
    TipFromStore(cfg, s);
  }

  /** However many runners take part, the thread's durable records are one lawful history:
      a prefix of the uninterrupted run when nothing paused and no command intervened, and
      all of it once the end was reached. */
  lemma TakeoversKeepOneHistory(cfg: Config, actions: seq<Action>, env: seq<Tick>)
    requires var s := Execution(cfg, actions);
      Straightforward(Recs(s.log), s.cmds) && Undisturbed(env) && |s.log| <= |env|
    ensures var s := Execution(cfg, actions);
      var straight := RunLoop(cfg.g, 0, true, map[], Cursor(cfg.g.entry, s.origin, 0), Nil, "", env);
      && Recs(s.log) <= straight.recs
      && (AtEnd(Tip(cfg.g, s.origin, Recs(s.log)).node) ==> Recs(s.log) == straight.recs && straight.stop == Completed)
  {
    EveryExecutionKeepsInv(cfg, actions);
    var s := Execution(cfg, actions);
    CrashResumeEquivalence(cfg.g, s.origin, Recs(s.log), s.cmds, env);
  }

  /** With pauses: two threads with the same input whose pauses were answered alike have the
      same records as far as both got, whoever ran, crashed and took over in between. */
  lemma TakeoversFollowTheAnswers(cfg: Config, actions: seq<Action>, actions': seq<Action>)
    requires var s, s' := Execution(cfg, actions), Execution(cfg, actions');
      && s.origin == s'.origin && |s.log| <= |s'.log|
      && PlainBetweenPauses(Recs(s.log), s.cmds) && PlainBetweenPauses(Recs(s'.log), s'.cmds)
      && Answers(Recs(s.log), s.cmds, |s.log|) <= Answers(Recs(s'.log), s'.cmds, |s'.log|)
    ensures Recs(Execution(cfg, actions).log) <= Recs(Execution(cfg, actions').log)
  {
    EveryExecutionKeepsInv(cfg, actions);
    EveryExecutionKeepsInv(cfg, actions');
    var s, s' := Execution(cfg, actions), Execution(cfg, actions');
    AnswersDecide(cfg.g, s.origin, Recs(s.log), s.cmds, Recs(s'.log), s'.cmds, |s.log|);
    assert Recs(s.log)[..|s.log|] == Recs(s.log);
  }

  /** The same with interrupts and commands: erased of its interrupt snapshots, the thread's
      history is that of one run that never paused. */
  lemma TakeoversAreTransparent(cfg: Config, actions: seq<Action>)
    ensures var s := Execution(cfg, actions);
      |s.cmds| == |Recs(s.log)| && Play(cfg.g, s.origin, Visits(Recs(s.log), s.cmds)).recs == Erase(Recs(s.log))
  {
    EveryExecutionKeepsInv(cfg, actions);
    var s := Execution(cfg, actions);
    InterruptTransparency(cfg.g, s.origin, Recs(s.log), s.cmds);
  }

  lemma OneWriterPerEpoch(lease: Lease, tags: seq<nat>, writers: seq<string>, owners: seq<string>, i: nat, j: nat)
    requires OwnersOk(lease, owners) && TagsOk(tags, lease.epoch) && WritersOk(tags, writers, owners) && i <= j < |tags|
    ensures |tags| == |writers| && |owners| == lease.epoch && 1 <= tags[i] <= tags[j] <= |owners|
    ensures writers[i] == owners[tags[i] - 1] && (writers[i] == writers[j] <==> tags[i] == tags[j])
    ensures writers[i] == writers[j] ==> forall k :: i <= k <= j ==> writers[k] == writers[i]
  {
    if tags[i] == tags[j] {
      forall k | i <= k <= j ensures writers[k] == writers[i] {
        assert tags[i] <= tags[k] <= tags[j];
      }
    }
  }

  /** Commits i and j are in one writer's segment exactly if they are under one epoch. */
  ghost predicate Segmented(s: Sys, i: nat, j: nat) {
    && i <= j < |s.log| == |s.tags| == |s.writers| && |s.owners| == s.lease.epoch
    && 1 <= s.tags[i] <= s.tags[j] <= |s.owners|
    && s.writers[i] == s.owners[s.tags[i] - 1]
    && (s.writers[i] == s.writers[j] <==> s.tags[i] == s.tags[j])
    && (s.writers[i] == s.writers[j] ==> forall k :: i <= k <= j ==> s.writers[k] == s.writers[i])
  }

  lemma InvIsSegmented(cfg: Config, s: Sys, i: nat, j: nat)
    requires Inv(cfg, s) && i <= j < |s.log|
    ensures Segmented(s, i, j)
  {
    OneWriterPerEpoch(s.lease, s.tags, s.writers, s.owners, i, j);
  }

  /** The history is a concatenation of single-writer segments: commit epochs ascend, each
      commit was made by the run granted its epoch, two commits come from one run exactly
      when they are under one epoch, and then so does every commit in between. */
  lemma SegmentsHaveOneOwner(cfg: Config, actions: seq<Action>, i: nat, j: nat)
    requires i <= j < |Execution(cfg, actions).log|
    ensures Segmented(Execution(cfg, actions), i, j)
  {
    EveryExecutionKeepsInv(cfg, actions);
    InvIsSegmented(cfg, Execution(cfg, actions), i, j);
  }

  /** A later epoch exists than the one this run was granted. */
  predicate Stale(s: Sys, run: string, epoch: nat) {
    run in s.runners && s.runners[run].grant.epoch == epoch < s.lease.epoch
  }

  lemma StaysStale(cfg: Config, s: Sys, a: Action, run: string, epoch: nat)
    requires Stale(s, run, epoch)
    ensures Stale(Step(cfg, s, a), run, epoch)
  {
  }

  lemma {:induction false} StaleForEver(cfg: Config, actions: seq<Action>, more: seq<Action>, run: string, epoch: nat)
    requires Stale(Execution(cfg, actions), run, epoch)
    ensures Stale(Execution(cfg, actions + more), run, epoch)
    decreases |more|
  {
    if more == [] {
      assert actions + more == actions;
    } else {
      var before, a := more[..|more| - 1], more[|more| - 1];
      var all := actions + more;
      assert all[..|all| - 1] == actions + before && all[|all| - 1] == a;
      StaleForEver(cfg, actions, before, run, epoch);
      StaysStale(cfg, Execution(cfg, actions + before), a, run, epoch);
    }
  }

  /** Once a later epoch exists, the earlier one is inert for ever: whatever anyone does
      from then on, its renewal and release change nothing at all, and its commit, refused
      with the lease error, leaves lease, store and log as they were. */
  lemma StaleEpochsAreInert(cfg: Config, actions: seq<Action>, more: seq<Action>, run: string, ttl: int, id: string,
                            draw: nat -> string)
    requires var s := Execution(cfg, actions); run in s.runners && s.runners[run].grant.epoch < s.lease.epoch
    ensures var s := Execution(cfg, actions + more);
      && run in s.runners
      && s.runners[run].grant.epoch == Execution(cfg, actions).runners[run].grant.epoch < s.lease.epoch
      && Step(cfg, s, Action.Renew(run, ttl)) == s
      && Step(cfg, s, Action.Release(run)) == s
      && (s.runners[run].phase.Computed? ==> CommitVerdict(cfg, s, run, id) == Some(LeaseLost))
      && var s' := Step(cfg, s, Action.Commit(run, id, draw));
           s'.lease == s.lease && s'.thread == s.thread && s'.log == s.log
  {
    StaleForEver(cfg, actions, more, run, Execution(cfg, actions).runners[run].grant.epoch);
  }
}
