/** Step artifacts and the per-node collector (graph/artifacts.go). */
module Artifacts {
  import opened Common
  import opened Values

  /** An agent's message list; its byte encoding is not part of the model. */
  type Payload = seq<Value>

  datatype Artifact = Artifact(kind: string, key: string, payload: Payload)

  const AGENT_SESSION := "agent_session"

  predicate IsSession(a: Artifact) {
    a.kind == AGENT_SESSION
  }

  /** The collector's duplicate key: kind and key joined by a NUL. */
  function Slot(a: Artifact): string {
    a.kind + "\0" + a.key
  }

  /** Rejection class of one registration, given what was accepted before it. */
  function RegisterError(list: seq<Artifact>, a: Artifact): Option<Error> {
    if a.kind == "" || a.key == "" then Some(BadArtifact)
    else if exists b :: b in list && Slot(b) == Slot(a) then Some(DuplicateArtifact)
    else None
  }

  /** What a node's registrations leave in its collector: the accepted ones, in order. */
  function Collect(regs: seq<Artifact>): seq<Artifact> {
    if regs == [] then []
    else
      var before := Collect(regs[..|regs| - 1]);
      var a := regs[|regs| - 1];
      if RegisterError(before, a).None? then before + [a] else before
  }

  /** No agent is saved twice by one step. */
  predicate DistinctSessions(arts: seq<Artifact>) {
    forall i, j :: 0 <= i < j < |arts| && IsSession(arts[i]) && IsSession(arts[j]) ==> arts[i].key != arts[j].key
  }

  class ArtifactCollector {
    var list: seq<Artifact>
    var seen: set<string>

    ghost predicate Valid()
      reads this
    {
      seen == set a | a in list :: Slot(a)
    }

    constructor ()
      ensures Valid() && list == []
    {
      list, seen := [], {};
    }

    method Register(a: Artifact) returns (err: Option<Error>)
      requires Valid()
      modifies this
      ensures Valid()
      ensures err == RegisterError(old(list), a)
      ensures list == if err.None? then old(list) + [a] else old(list)
    {
      if a.kind == "" || a.key == "" {
        return Some(BadArtifact);
      }
      if Slot(a) in seen {
        return Some(DuplicateArtifact);
      }
      seen := seen + {Slot(a)};
      list := list + [a];
      return None;
    }

    /** A node that registers `regs` in turn leaves exactly `Collect(regs)` behind. */
    method RegisterAll(regs: seq<Artifact>)
      requires Valid() && list == []
      modifies this
      ensures Valid() && list == Collect(regs)
    {
      assert regs[..0] == [];
      for i := 0 to |regs|
        invariant Valid() && list == Collect(regs[..i])
      {
        assert regs[..i + 1][..i] == regs[..i];
        var _ := Register(regs[i]);
      }
      assert regs[..|regs|] == regs;
    }
  }

  lemma {:induction false} CollectedSlotsDistinct(regs: seq<Artifact>)
    ensures forall i, j :: 0 <= i < j < |Collect(regs)| ==> Slot(Collect(regs)[i]) != Slot(Collect(regs)[j])
  {
    if regs != [] {
      CollectedSlotsDistinct(regs[..|regs| - 1]);
    }
  }

  /** Whatever a node registers, one step never commits two sessions for one agent. */
  lemma CollectedSessionsDistinct(regs: seq<Artifact>)
    ensures DistinctSessions(Collect(regs))
  {
    CollectedSlotsDistinct(regs);
  }
}
