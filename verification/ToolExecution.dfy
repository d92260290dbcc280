/** Idempotency keys for tool side effects (graph/tool_execution.go). The digest itself is
    abstracted: two keys agree exactly as far as the digested payloads do. */
module ToolExecution {
  import opened Common
  import opened Values
  import opened Artifacts
  import opened ThreadInvariant
  import opened EngineSpec
  import opened History
  import opened RunFacts
  import opened Bounded
  import opened Invocation
  import opened SessionContinuity
  import opened Text

  /** What the engine puts into the context of a node. */
  datatype CallContext = CallContext(thread: string, run: string, node: string, parent: string, epoch: nat)

  datatype Execution = Execution(ctx: CallContext, tool: string, operation: string)

  const KEY_VERSION := "v1"

  function ExecutionFrom(ctx: CallContext, tool: string, operation: string): Result<Execution> {
    var t, op := TrimSpace(tool), TrimSpace(operation);
    if t == "" then Err(MissingToolName)
    else if op == "" then Err(MissingOperationID)
    else Ok(Execution(ctx, t, op))
  }

  function JoinNul(parts: seq<string>): string {
    if parts == [] then ""
    else if |parts| == 1 then parts[0]
    else parts[0] + "\0" + JoinNul(parts[1..])
  }

  /** The parts that are digested: run and epoch are left out on purpose. */
  function Parts(e: Execution): seq<string> {
    [KEY_VERSION, e.ctx.thread, e.ctx.parent, e.ctx.node, e.tool, e.operation]
  }

  function KeyPayload(e: Execution): string {
    JoinNul(Parts(e))
  }

  predicate NulFree(s: string) {
    forall i :: 0 <= i < |s| ==> s[i] != '\0'
  }

  predicate AllNulFree(parts: seq<string>) {
    forall i :: 0 <= i < |parts| ==> NulFree(parts[i])
  }

  /** The first NUL ends the first part. */
  lemma FirstPart(a: string, b: string, x: string, y: string)
    requires NulFree(a) && NulFree(b) && a + "\0" + x == b + "\0" + y
    ensures a == b && x == y
  {
    var s, t := a + "\0" + x, b + "\0" + y;
    assert s[|a|] == '\0' && t[|b|] == '\0';
    assert forall i :: 0 <= i < |a| ==> s[i] == a[i];
    assert forall i :: 0 <= i < |b| ==> t[i] == b[i];
    assert s[..|a|] == a && t[..|b|] == b;
    assert s[|a| + 1..] == x && t[|b| + 1..] == y;
  }

  lemma NulInside(a: string, x: string)
    ensures !NulFree(a + "\0" + x)
  {
    assert (a + "\0" + x)[|a|] == '\0';
  }

  /** Joining NUL-free parts loses nothing. */
  lemma {:induction false} JoinIsInjective(a: seq<string>, b: seq<string>)
    requires a != [] && b != [] && AllNulFree(a) && AllNulFree(b) && JoinNul(a) == JoinNul(b)
    ensures a == b
    decreases |a|
  {
    if |a| == 1 && |b| > 1 {
      NulInside(b[0], JoinNul(b[1..]));
    } else if |a| > 1 && |b| == 1 {
      NulInside(a[0], JoinNul(a[1..]));
    } else if |a| > 1 {
      FirstPart(a[0], b[0], JoinNul(a[1..]), JoinNul(b[1..]));
      JoinIsInjective(a[1..], b[1..]);
      assert a == [a[0]] + a[1..] && b == [b[0]] + b[1..];
    }
  }

  predicate CleanExecution(e: Execution) {
    NulFree(e.ctx.thread) && NulFree(e.ctx.parent) && NulFree(e.ctx.node) && NulFree(e.tool) && NulFree(e.operation)
  }

  /** The coordinates that are to identify an effect. */
  predicate SameEffect(e: Execution, f: Execution) {
    && e.ctx.thread == f.ctx.thread && e.ctx.parent == f.ctx.parent && e.ctx.node == f.ctx.node
    && e.tool == f.tool && e.operation == f.operation
  }

  /** Among executions without NULs the payload identifies thread, parent, node, tool and
      operation, and nothing else. */
  lemma PayloadsIdentifyEffects(e: Execution, f: Execution)
    requires CleanExecution(e) && CleanExecution(f)
    ensures KeyPayload(e) == KeyPayload(f) <==> SameEffect(e, f)
  {
    var a, b := Parts(e), Parts(f);
    if KeyPayload(e) == KeyPayload(f) {
      JoinIsInjective(a, b);
      assert a[1] == b[1] && a[2] == b[2] && a[3] == b[3] && a[4] == b[4] && a[5] == b[5];
    }
  }

  // --------------------------------------------------- exactly when a payload identifies its effect

  function Nuls(s: string): nat {
    if s == "" then 0 else Nuls(s[..|s| - 1]) + if s[|s| - 1] == '\0' then 1 else 0
  }

  lemma {:induction false} NoNulsIff(s: string)
    ensures Nuls(s) == 0 <==> NulFree(s)
  {
    if s != "" {
      NoNulsIff(s[..|s| - 1]);
      assert NulFree(s) ==> NulFree(s[..|s| - 1]);
    }
  }

  lemma {:induction false} NulsAdd(a: string, b: string)
    ensures Nuls(a + b) == Nuls(a) + Nuls(b)
  {
    if b == "" {
      assert a + b == a;
    } else {
      NulsAdd(a, b[..|b| - 1]);
      assert (a + b)[..|a + b| - 1] == a + b[..|b| - 1];
    }
  }

  function AllNuls(parts: seq<string>): nat {
    if parts == [] then 0 else Nuls(parts[0]) + AllNuls(parts[1..])
  }

  lemma {:induction false} JoinCountsNuls(parts: seq<string>)
    requires parts != []
    ensures Nuls(JoinNul(parts)) == AllNuls(parts) + |parts| - 1
  {
    if |parts| > 1 {
      JoinCountsNuls(parts[1..]);
      NulsAdd(parts[0] + "\0", JoinNul(parts[1..]));
      NulsAdd(parts[0], "\0");
      assert Nuls("\0") == 1 by { assert "\0"[..0] == ""; }
    }
  }

  lemma {:induction false} NoNulsInParts(parts: seq<string>)
    ensures AllNuls(parts) == 0 <==> AllNulFree(parts)
  {
    if parts != [] {
      NoNulsIff(parts[0]);
      NoNulsInParts(parts[1..]);
      assert AllNulFree(parts) ==> forall i :: 0 <= i < |parts[1..]| ==> parts[1..][i] == parts[i + 1];
      assert AllNulFree(parts[1..]) && NulFree(parts[0]) ==> AllNulFree(parts) by {
        assert forall i :: 1 <= i < |parts| ==> parts[i] == parts[1..][i - 1];
      }
    }
  }

  lemma CleanIff(e: Execution)
    ensures CleanExecution(e) <==> AllNulFree(Parts(e))
  {
    var p := Parts(e);
    assert NulFree(KEY_VERSION);
    assert p[1] == e.ctx.thread && p[2] == e.ctx.parent && p[3] == e.ctx.node && p[4] == e.tool && p[5] == e.operation;
  }

  /** One side without NULs suffices: whatever shares its payload has none either. */
  lemma CleanPayloadsAreClean(e: Execution, f: Execution)
    requires CleanExecution(e) && KeyPayload(e) == KeyPayload(f)
    ensures CleanExecution(f)
  {
    CleanIff(e);
    CleanIff(f);
    JoinCountsNuls(Parts(e));
    JoinCountsNuls(Parts(f));
    NoNulsInParts(Parts(e));
    NoNulsInParts(Parts(f));
  }

  /** A boundary between two parts can move to a NUL inside the left one. */
  lemma {:induction false} ShiftBoundary(parts: seq<string>, i: nat, a: string, b: string)
    requires i + 1 < |parts| && parts[i] == a + "\0" + b
    ensures JoinNul(parts[i := a][i + 1 := b + "\0" + parts[i + 1]]) == JoinNul(parts)
    decreases i
  {
    var moved := parts[i := a][i + 1 := b + "\0" + parts[i + 1]];
    if i > 0 {
      ShiftBoundary(parts[1..], i - 1, a, b);
      assert moved[1..] == parts[1..][i - 1 := a][i := b + "\0" + parts[1..][i]];
    } else if |parts| == 2 {
      assert JoinNul(moved[1..]) == b + "\0" + parts[1] && JoinNul(parts[1..]) == parts[1];
      assert (a + "\0") + (b + "\0" + parts[1]) == ((a + "\0" + b) + "\0") + parts[1];
    } else {
      var rest := JoinNul(parts[2..]);
      assert moved[1..][1..] == parts[2..] && parts[1..][1..] == parts[2..];
      assert JoinNul(moved[1..]) == (b + "\0" + parts[1]) + "\0" + rest;
      assert JoinNul(parts[1..]) == parts[1] + "\0" + rest;
      assert (a + "\0") + ((b + "\0" + parts[1]) + "\0" + rest) == ((a + "\0" + b) + "\0") + (parts[1] + "\0" + rest);
    }
  }

  function FirstNul(s: string): (i: nat)
    requires !NulFree(s)
    ensures i < |s| && s[i] == '\0'
  {
    if s[0] == '\0' then 0
    else
      assert !NulFree(s[1..]) by {
        var k :| 0 <= k < |s| && s[k] == '\0';
        assert s[1..][k - 1] == '\0';
      }
      1 + FirstNul(s[1..])
  }

  lemma SplitAtNul(s: string) returns (a: string, b: string)
    requires !NulFree(s)
    ensures s == a + "\0" + b
  {
    a, b := s[..FirstNul(s)], s[FirstNul(s) + 1..];
  }

  /** The execution with the given parts in place of its own. */
  function WithParts(e: Execution, p: seq<string>): Execution
    requires |p| == 6
  {
    Execution(CallContext(p[1], e.ctx.run, p[3], p[2], e.ctx.epoch), p[4], p[5])
  }

  /** A payload with a NUL in one of its parts belongs to another effect as well. */
  lemma UncleanCollides(e: Execution) returns (f: Execution)
    requires !CleanExecution(e)
    ensures KeyPayload(f) == KeyPayload(e) && !SameEffect(e, f)
  {
    CleanIff(e);
    var p := Parts(e);
    var i: nat :| i < |p| && !NulFree(p[i]);
    assert NulFree(KEY_VERSION);
    var a, b := SplitAtNul(p[i]);
    if i < 5 {
      ShiftBoundary(p, i, a, b);
      f := WithParts(e, p[i := a][i + 1 := b + "\0" + p[i + 1]]);
      assert Parts(f) == p[i := a][i + 1 := b + "\0" + p[i + 1]];
      assert |a| < |p[i]|;
    } else {
      var q := p[4 := p[4] + "\0" + a][5 := b];
      assert b + "" == b;
      ShiftBoundary(q, 4, p[4], a);
      assert q[4 := p[4]][5 := a + "\0" + b] == p;
      f := WithParts(e, q);
      assert Parts(f) == q && |b| < |p[5]|;
    }
  }

  ghost predicate Identifies(e: Execution) {
    forall f: Execution :: KeyPayload(f) == KeyPayload(e) ==> SameEffect(e, f)
  }

  /** Exactly when a payload identifies its effect: if and only if no field has a NUL. */
  lemma PayloadIdentifiesIff(e: Execution)
    ensures Identifies(e) <==> CleanExecution(e)
  {
    if CleanExecution(e) {
      forall f: Execution | KeyPayload(f) == KeyPayload(e) ensures SameEffect(e, f) {
        CleanPayloadsAreClean(e, f);
        PayloadsIdentifyEffects(e, f);
      }
    } else {
      var f := UncleanCollides(e);
    }
  }

  lemma NulsAreNotBlanks()
    ensures TrimSpace("t\0o") == "t\0o" && TrimSpace("o\0p") == "o\0p" && TrimSpace("t") == "t" && TrimSpace("p") == "p"
  {
    TrimSpaceTrims("t\0o");
    TrimSpaceTrims("o\0p");
    TrimSpaceTrims("t");
    TrimSpaceTrims("p");
  }

  /** A collision that callers can cause: two tool calls of one node whose names and
      operation ids put a NUL on different sides of the boundary. */
  lemma NulsCanCollide(ctx: CallContext)
    ensures var one, other := ExecutionFrom(ctx, "t\0o", "p"), ExecutionFrom(ctx, "t", "o\0p");
      && one.Ok? && other.Ok? && one.value.tool != other.value.tool
      && KeyPayload(one.value) == KeyPayload(other.value)
  {
    NulsAreNotBlanks();
    var one := Execution(ctx, "t\0o", "p");
    assert "t\0o" == "t" + "\0" + "o" && "o" + "\0" + "p" == "o\0p";
    ShiftBoundary(Parts(one), 4, "t", "o");
    assert Parts(one)[4 := "t"][5 := "o\0p"] == Parts(Execution(ctx, "t", "o\0p"));
  }

  // --------------------------------------------------- committed steps never share a key

  /** Two different commits of one thread, super-steps or pauses, were executed under
      different parents: whatever the nodes, tools and operations, they share no payload. */
  lemma CommitsNeverShareKeys(log: seq<Entry>, thread: string, i: nat, j: nat, e: Execution, f: Execution)
    requires Chained(log, thread) && DistinctIds(log) && i < j < |log|
    requires e.ctx.parent == log[i].snap.parent && f.ctx.parent == log[j].snap.parent
    requires CleanExecution(e) && CleanExecution(f)
    ensures KeyPayload(e) != KeyPayload(f)
  {
    assert Linked(log, thread, i) && Linked(log, thread, j) && Linked(log, thread, j - 1);
    PayloadsIdentifyEffects(e, f);
  }

  // --------------------------------------------------- retries reuse the key

  /** The parent checkpoint in the context of a run's k-th node. */
  function ExecParent(parent: string, ids: seq<string>, k: nat): string
    requires k <= |ids|
  {
    if k == 0 then parent else ids[k - 1]
  }

  /** At most the last node a run started is without a commit, and then nothing it committed
      was an interrupt. */
  ghost predicate OpenEnded(out: RunOut) {
    && |out.recs| <= |out.execs| <= |out.recs| + 1
    && (|out.execs| == |out.recs| + 1 ==> forall i :: 0 <= i < |out.recs| ==> !out.recs[i].interrupt)
  }

  lemma {:induction false} RunsAreOpenEnded(g: Graph, cap: int, fits: bool, sessions: map<string, Payload>, c: Cursor,
                                            resume: Value, parent: string, env: seq<Tick>)
    ensures OpenEnded(RunLoop(g, cap, fits, sessions, c, resume, parent, env))
    decreases |env|
  {
    if !AtEnd(c.node) && env != [] {
      Unrolled(g, cap, fits, sessions, c, resume, parent, env);
      var it := Iterate(g, fits, sessions, c, resume, parent, env[0]);
      if Gate(g, c.node, env[0]).None? {
        AttemptPossible(g, c, resume, sessions);
        ConcludedOutcome(c, Attempt(g, c, resume, sessions), fits, parent, env[0],
                         [Exec(c.node, NodeInput(c.state, resume, sessions))]);
        ConcludedCounts(c, Attempt(g, c, resume, sessions), fits, parent, env[0],
                        [Exec(c.node, NodeInput(c.state, resume, sessions))]);
        if it.next.Some? && !Capped(cap, it.next.value.step) {
          var rec := it.next.value;
          RunsAreOpenEnded(g, cap, fits, sessions + SavedBy(rec.arts), Cursor(rec.node, rec.state, rec.step), Nil,
                           env[0].id, env[1..]);
        }
      }
    }
  }

  /** The two ways into the engine. */
  datatype EngineCall = Invoking(input: State) | Resuming(cmd: Command, expected: string)

  function Called(g: Graph, d: Durable, call: EngineCall, cap: int, env: seq<Tick>): RunOut {
    match call
    case Invoking(input) => Invoked(g, d, input, cap, env)
    case Resuming(cmd, expected) => Resumed(g, d, cap, cmd, expected, env)
  }

  /** The parent checkpoint a call starts from. */
  function StartParent(d: Durable, call: EngineCall): string {
    if call.Invoking? then "" else d.latest
  }

  /** How a call that was cut off is retried: once it has committed something a plain resume
      continues it, before that the call itself is made again. */
  function RetryCall(call: EngineCall, out: RunOut): EngineCall {
    if out.recs == [] then call else Resuming(PLAIN, "")
  }

  /** What the loop says about the executions of one run from the tip. */
  lemma LoopFacts(g: Graph, cap: int, recs: seq<Rec>, c: Cursor, value: Value, parent: string, env: seq<Tick>, k: nat)
    requires k < |RunLoop(g, cap, true, SessionsOf(recs), c, value, parent, env).execs|
    ensures var out := RunLoop(g, cap, true, SessionsOf(recs), c, value, parent, env);
      && OpenEnded(out) && |out.ids| == |out.recs| && SeesHistory(recs, out, k)
      && (k > 0 ==> out.execs[k].input.resume == Nil)
  {
    RunsAreOpenEnded(g, cap, true, SessionsOf(recs), c, value, parent, env);
    EventsMirrorStorage(g, cap, true, SessionsOf(recs), c, value, parent, env);
    OnlyFirstNodeIsResumed(g, cap, true, SessionsOf(recs), c, value, parent, env);
    NodesSeeTheirHistory(g, cap, recs, c, value, parent, env, k);
  }

  /** A call that committed something and then left a node open ran from the tip. */
  lemma CallFacts(g: Graph, d: Durable, call: EngineCall, cap: int, env: seq<Tick>)
    requires d.latest == "" ==> d.recs == []
    requires var out := Called(g, d, call, cap, env); out.recs != [] && |out.execs| == |out.recs| + 1
    ensures var out := Called(g, d, call, cap, env);
      && OpenEnded(out) && |out.ids| == |out.recs| && SeesHistory(d.recs, out, |out.recs|)
      && out.execs[|out.recs|].input.resume == Nil
  {
    var k := |Called(g, d, call, cap, env).recs|;
    match call
    case Invoking(input) =>
      var c := Cursor(g.entry, input, 0);
      if !AtEnd(c.node) && d.latest != "" {
        MisfitsFail(g, cap, map[], c, Nil, "", env);
      }
      assert SessionsOf([]) == map[];
      LoopFacts(g, cap, [], c, Nil, "", env, k);
    case Resuming(cmd, expected) =>
      var c, value := Enter(g, map[], d.recs, cmd), Delivered(d.recs, cmd);
      LoopFacts(g, cap, d.recs, c, value, d.latest, env, k);
  }

  /** A plain resume after some commits enters at the node that was cut off. */
  lemma PlainRetry(g: Graph, d: Durable, out: RunOut, cap: int, env: seq<Tick>)
    requires OpenEnded(out) && |out.execs| == |out.recs| + 1 && out.recs != [] && |out.ids| == |out.recs|
    requires SeesHistory(d.recs, out, |out.recs|) && out.execs[|out.recs|].input.resume == Nil
    requires Resumed(g, After(d, out), cap, PLAIN, "", env).execs != []
    ensures Resumed(g, After(d, out), cap, PLAIN, "", env).execs[0] == out.execs[|out.recs|]
  {
    var d' := After(d, out);
    assert out.recs[..|out.recs|] == out.recs;
    BareEnters(g, map[], d'.recs, PLAIN);
    OnlyFirstNodeIsResumed(g, cap, true, SessionsOf(d'.recs), Tip(g, map[], d'.recs), Nil, d'.latest, env);
  }

  /** The same call again on the same thread starts with the same execution. */
  lemma SameRetry(g: Graph, d: Durable, call: EngineCall, cap: int, env: seq<Tick>, cap2: int, env2: seq<Tick>)
    requires Called(g, d, call, cap, env).execs != [] && Called(g, d, call, cap2, env2).execs != []
    ensures Called(g, d, call, cap2, env2).execs[0] == Called(g, d, call, cap, env).execs[0]
  {
    match call
    case Invoking(input) =>
      OnlyFirstNodeIsResumed(g, cap, d.latest == "", map[], Cursor(g.entry, input, 0), Nil, "", env);
      OnlyFirstNodeIsResumed(g, cap2, d.latest == "", map[], Cursor(g.entry, input, 0), Nil, "", env2);
    case Resuming(cmd, expected) =>
      var c, value := Enter(g, map[], d.recs, cmd), Delivered(d.recs, cmd);
      OnlyFirstNodeIsResumed(g, cap, true, SessionsOf(d.recs), c, value, d.latest, env);
      OnlyFirstNodeIsResumed(g, cap2, true, SessionsOf(d.recs), c, value, d.latest, env2);
  }

  /** The last execution of a call has no commit, and the retry got as far as a node. */
  ghost predicate CutOffAndRetried(g: Graph, d: Durable, call: EngineCall, cap: int, env: seq<Tick>, cap2: int,
                                   env2: seq<Tick>) {
    var out := Called(g, d, call, cap, env);
    |out.execs| == |out.recs| + 1 && Called(g, After(d, out), RetryCall(call, out), cap2, env2).execs != []
  }

  /** A node cut off before its commit, in an Invoke or in a Resume, is executed again by
      whichever call retries it, with the same input and under the same parent: so under
      the same coordinates. */
  lemma RetriesRepeatTheExecution(g: Graph, d: Durable, call: EngineCall, cap: int, env: seq<Tick>, cap2: int,
                                  env2: seq<Tick>)
    requires (d.latest == "" ==> d.recs == []) && CutOffAndRetried(g, d, call, cap, env, cap2, env2)
    ensures var out := Called(g, d, call, cap, env);
      var k, d', retry := |out.recs|, After(d, out), RetryCall(call, out);
      && k <= |out.ids| && StartParent(d', retry) == ExecParent(StartParent(d, call), out.ids, k)
      && Called(g, d', retry, cap2, env2).execs[0] == out.execs[k]
  {
    var out := Called(g, d, call, cap, env);
    if out.recs == [] {
      assert d.recs + out.recs == d.recs;
      NothingCommitted(g, d, call, cap, env);
      SameRetry(g, d, call, cap, env, cap2, env2);
    } else {
      CallFacts(g, d, call, cap, env);
      PlainRetry(g, d, out, cap2, env2);
    }
  }

  lemma NothingCommitted(g: Graph, d: Durable, call: EngineCall, cap: int, env: seq<Tick>)
    requires Called(g, d, call, cap, env).recs == []
    ensures Called(g, d, call, cap, env).ids == []
  {
    match call
    case Invoking(input) => EventsMirrorStorage(g, cap, d.latest == "", map[], Cursor(g.entry, input, 0), Nil, "", env);
    case Resuming(cmd, _) =>
      EventsMirrorStorage(g, cap, true, SessionsOf(d.recs), Enter(g, map[], d.recs, cmd), Delivered(d.recs, cmd),
                          d.latest, env);
  }

  /** Hence every effect of the retried node has the payload it had the first time, under
      whatever run id and lease epoch it is retried. */
  lemma RetriesReuseKeys(g: Graph, thread: string, d: Durable, call: EngineCall, cap: int, env: seq<Tick>, cap2: int,
                         env2: seq<Tick>,
                         run1: string, run2: string, epoch1: nat, epoch2: nat, tool: string, operation: string)
    requires (d.latest == "" ==> d.recs == []) && CutOffAndRetried(g, d, call, cap, env, cap2, env2)
    ensures var out := Called(g, d, call, cap, env);
      var k, d', retry := |out.recs|, After(d, out), RetryCall(call, out);
      var one, again := out.execs[k], Called(g, d', retry, cap2, env2).execs[0];
      && k <= |out.ids|
      && var first := ExecutionFrom(
           CallContext(thread, run1, one.node, ExecParent(StartParent(d, call), out.ids, k), epoch1), tool, operation);
      var second := ExecutionFrom(CallContext(thread, run2, again.node, StartParent(d', retry), epoch2), tool,
                                  operation);
      (first.Ok? <==> second.Ok?) && (first.Ok? ==> KeyPayload(first.value) == KeyPayload(second.value))
  {
    RetriesRepeatTheExecution(g, d, call, cap, env, cap2, env2);
  }
}
