/** Many engine runs on one thread: every runner acquires the lease, loads the tip, executes
    nodes and commits through the fence, while clocks jump, runners stop at any point,
    leases expire and are taken over, stale runners keep trying, and history is pruned. */
module Takeover {
  import opened Common
  import opened Values
  import opened ThreadSpec
  import opened ThreadInvariant
  import opened LeaseSpec
  import opened MemoryLease
  import opened EngineSpec
  import opened History
  import opened HistoryFacts

  datatype Config = Config(g: Graph, thread: string)

  datatype Task =
    | Fresh(input: State)
    | Continue(cmd: Command, expected: string)

  datatype Phase =
    | Granted
    | Ready(parent: string, cursor: Cursor, resume: Value)
    | Computed(parent: string, rec: Rec)
    | Halted

  /** A runner's local state. The last two fields only record facts: the command in force
      for its next record, and whether a fresh invocation found the thread empty. */
  datatype Runner = Runner(grant: Grant, task: Task, phase: Phase, cmd: Command, clean: bool)

  /** The shared state. The second line records history: every commit with its command, the
      epoch it was made under and the run that made it, the input of the first one, and the
      run that was granted each epoch. */
  datatype Sys = Sys(
    now: nat, lease: Lease, thread: Thread, runners: map<string, Runner>,
    log: seq<Entry>, cmds: seq<Command>, tags: seq<nat>, writers: seq<string>, origin: State, owners: seq<string>)

  datatype Action =
    | SetClock(time: nat)
    | Acquire(run: string, task: Task, ttl: int)
    | Renew(run: string, ttl: int)
    | Release(run: string)
    | Load(run: string)
    | Execute(run: string)
    | Commit(run: string, id: string, draw: nat -> string)
    | Halt(run: string)
    | Prune(keep: nat)

  const INIT := Sys(0, FREE, EMPTY_THREAD, map[], [], [], [], [], map[], [])

  function SetPhase(s: Sys, run: string, phase: Phase, cmd: Command): Sys
    requires run in s.runners
  {
    s.(runners := s.runners[run := s.runners[run].(phase := phase, cmd := cmd)])
  }

  /** A new run takes the lease if it is free or expired. */
  function DoAcquire(s: Sys, thread: string, run: string, task: Task, ttl: int): Sys {
    if run == "" || run in s.runners then s
    else
      match AcquireResult(s.lease, thread, run, ttl, s.now)
      case Err(_) => s
      case Ok(grant) =>
        s.(lease := Acquired(s.lease, run, ttl, s.now),
           runners := s.runners[run := Runner(grant, task, Granted, PLAIN, task.Continue? || s.log == [])],
           owners := s.owners + [run])
  }

  function DoRenew(s: Sys, run: string, ttl: int): Sys
    requires run in s.runners
  {
    var r := s.runners[run];
    match RenewResult(s.lease, r.grant, ttl, s.now)
    case Err(_) => s
    case Ok(grant) => s.(lease := Renewed(s.lease, r.grant, ttl, s.now),
                         runners := s.runners[run := r.(grant := grant)])
  }

  /** The start of Invoke or Resume, after the lease was acquired. */
  function LoadedPhase(cfg: Config, t: Thread, task: Task): Phase {
    match task
    case Fresh(input) => Ready("", Cursor(cfg.g.entry, input, 0), Nil)
    case Continue(cmd, expected) =>
      match LatestOf(t)
      case None => Halted
      case Some(snap) =>
        var c := Patched(cfg.g, Cursor(snap.node, snap.state, snap.step), cmd);
        if (expected != "" && snap.id != expected) || AtEnd(c.node) || (snap.interrupt && cmd.resume == Nil) then Halted
        else Ready(snap.id, c, if snap.interrupt then cmd.resume else Nil)
  }

  function DoLoad(cfg: Config, s: Sys, run: string): Sys
    requires run in s.runners
  {
    var task := s.runners[run].task;
    SetPhase(s, run, LoadedPhase(cfg, s.thread, task), if task.Continue? then task.cmd else PLAIN)
  }

  /** One node execution; nothing is persisted yet. */
  function ExecutedPhase(g: Graph, t: Thread, parent: string, c: Cursor, resume: Value): Phase {
    if AtEnd(c.node) || c.node !in g.nodes then Halted
    else
      match Attempt(g, c, resume, SeenSessions(t, parent))
      case Advanced(rec) => Computed(parent, rec)
      case Paused(rec) => Computed(parent, rec)
      case Crashed(_, _) => Halted
  }

  function DoExecute(cfg: Config, s: Sys, run: string): Sys
    requires run in s.runners && s.runners[run].phase.Ready?
  {
    var Ready(parent, c, resume) := s.runners[run].phase;
    SetPhase(s, run, ExecutedPhase(cfg.g, s.thread, parent, c, resume), s.runners[run].cmd)
  }

  /** What the fence and the compare-and-set say to a computed step. */
  function CommitVerdict(cfg: Config, s: Sys, run: string, id: string): Option<Error>
    requires run in s.runners && s.runners[run].phase.Computed?
  {
    var r := s.runners[run];
    FenceError(s.lease, s.thread, SnapOf(r.phase.rec, id, r.phase.parent, cfg.thread), r.grant, s.now)
  }

  function DoCommit(cfg: Config, s: Sys, run: string, id: string, draw: nat -> string): Sys
    requires run in s.runners && s.runners[run].phase.Computed?
  {
    var r, Computed(parent, rec) := s.runners[run], s.runners[run].phase;
    var snap := SnapOf(rec, id, parent, cfg.thread);
    if CommitVerdict(cfg, s, run, id).Some? then SetPhase(s, run, Halted, PLAIN)
    else
      var phase := if rec.interrupt then Halted else Ready(id, Cursor(rec.node, rec.state, rec.step), Nil);
      var s' := SetPhase(s, run, phase, PLAIN);
      s'.(thread := ThreadSpec.Commit(s.thread, snap, rec.arts, draw),
          log := s.log + [Entry(snap.(revision := s.thread.revision + 1), rec.arts)],
          cmds := s.cmds + [r.cmd],
          tags := s.tags + [r.grant.epoch],
          writers := s.writers + [run],
          origin := if s.log == [] && r.task.Fresh? then r.task.input else s.origin)
  }

  /** Any action of anyone; one that is not enabled leaves everything as it is. Ids drawn
      for a commit are fresh. */
  ghost function Step(cfg: Config, s: Sys, a: Action): Sys {
    match a
    case SetClock(time) => s.(now := time)
    case Acquire(run, task, ttl) => DoAcquire(s, cfg.thread, run, task, ttl)
    case Renew(run, ttl) => if run in s.runners then DoRenew(s, run, ttl) else s
    case Release(run) => if run in s.runners then s.(lease := Released(s.lease, s.runners[run].grant)) else s
    case Load(run) => if run in s.runners && s.runners[run].phase.Granted? then DoLoad(cfg, s, run) else s
    case Execute(run) => if run in s.runners && s.runners[run].phase.Ready? then DoExecute(cfg, s, run) else s
    case Commit(run, id, draw) =>
      if run in s.runners && s.runners[run].phase.Computed? && id != "" && !HasId(s.thread.history, id)
        && FreshDraw(s.thread, draw)
      then DoCommit(cfg, s, run, id, draw) else s
    case Halt(run) => if run in s.runners then SetPhase(s, run, Halted, PLAIN) else s
    case Prune(keep) => if keep > 0 then s.(thread := ThreadSpec.Prune(s.thread, keep)) else s
  }

  ghost function Execution(cfg: Config, actions: seq<Action>): Sys {
    if actions == [] then INIT
    else Step(cfg, Execution(cfg, actions[..|actions| - 1]), actions[|actions| - 1])
  }

  // ---------------------------------------------------------------- invariant

  function Origin(s: Sys, r: Runner): State {
    if s.log == [] && r.task.Fresh? then r.task.input else s.origin
  }

  /** A run that may still commit works from the store's tip, as one lawful continuation. */
  ghost predicate Aligned(cfg: Config, s: Sys, r: Runner) {
    match r.phase
    case Granted => r.task.Fresh? ==> s.log == []
    case Ready(parent, c, resume) =>
      && parent == s.thread.latest
      && (s.log == [] ==> r.task.Fresh? && r.cmd == PLAIN)
      && (TipInterrupted(Recs(s.log)) ==> r.cmd.resume != Nil)
      && c == Enter(cfg.g, Origin(s, r), Recs(s.log), r.cmd)
      && resume == Delivered(Recs(s.log), r.cmd)
    case Computed(parent, rec) =>
      && parent == s.thread.latest
      && (s.log == [] ==> r.task.Fresh?)
      && LawfulStep(cfg.g, Origin(s, r), Recs(s.log), r.cmd, rec)
    case Halted => true
  }

  /** A fresh invocation of a thread that already has a history. */
  ghost predicate Doomed(s: Sys, r: Runner) {
    && r.task.Fresh? && s.log != []
    && (r.phase.Ready? ==> r.phase.parent == "")
    && (r.phase.Computed? ==> r.phase.parent == "")
  }

  ghost predicate Fits(cfg: Config, s: Sys, r: Runner) {
    if r.clean then Aligned(cfg, s, r) else Doomed(s, r)
  }

  ghost predicate HolderOk(cfg: Config, s: Sys) {
    s.lease.runID != "" ==> s.lease.runID in s.runners && Fits(cfg, s, s.runners[s.lease.runID])
  }

  /** A runner's grant names it, and the epoch's owner is that run. */
  ghost predicate RunnerOk(thread: string, owners: seq<string>, run: string, g: Grant) {
    && g.run == run && run != "" && g.thread == thread
    && 1 <= g.epoch <= |owners| && owners[g.epoch - 1] == run
  }

  ghost predicate OwnersOk(lease: Lease, owners: seq<string>) {
    && |owners| == lease.epoch
    && (lease.runID != "" ==> lease.epoch > 0 && owners[lease.epoch - 1] == lease.runID)
    && forall i, j :: 0 <= i < j < |owners| ==> owners[i] != owners[j]
  }

  ghost predicate RunnersOk(thread: string, owners: seq<string>, runners: map<string, Runner>) {
    && (forall i :: 0 <= i < |owners| ==> owners[i] in runners)
    && (forall run :: run in runners ==> RunnerOk(thread, owners, run, runners[run].grant))
  }

  /** The epochs of the commits ascend, and never run ahead of the lease. */
  ghost predicate TagsOk(tags: seq<nat>, epoch: nat) {
    forall i, j :: 0 <= i <= j < |tags| ==> 1 <= tags[i] <= tags[j] <= epoch
  }

  /** Each commit was made by the run that was granted its epoch. */
  ghost predicate WritersOk(tags: seq<nat>, writers: seq<string>, owners: seq<string>) {
    && |writers| == |tags|
    && forall i :: 0 <= i < |tags| ==> 1 <= tags[i] <= |owners| && writers[i] == owners[tags[i] - 1]
  }

  ghost predicate StoreOk(cfg: Config, s: Sys) {
    && ThreadInv(s.thread, s.log, cfg.thread)
    && Lawful(cfg.g, s.origin, Recs(s.log), s.cmds)
    && |s.tags| == |s.log|
  }

  ghost predicate LeaseOk(cfg: Config, s: Sys) {
    && OwnersOk(s.lease, s.owners) && RunnersOk(cfg.thread, s.owners, s.runners)
    && TagsOk(s.tags, s.lease.epoch) && WritersOk(s.tags, s.writers, s.owners)
  }

  ghost predicate Inv(cfg: Config, s: Sys) {
    StoreOk(cfg, s) && LeaseOk(cfg, s) && HolderOk(cfg, s)
  }
}
