/** Agent conversations bound to checkpoints (agentspec/spec.go): an instance loads its
    messages from the parent checkpoint and registers them as an artifact of its step. The
    model's own loop over the messages stays uninterpreted. */
module AgentSessions {
  import opened Common
  import opened Values
  import opened Artifacts
  import ThreadSpec
  import opened DurableMemory
  import opened EngineSpec
  import opened HistoryFacts
  import opened Supervisor

  /** The agent loop: it extends the messages, and may fail after having done so. */
  datatype LoopOutcome = Ran(messages: Payload) | LoopFailed(messages: Payload)

  datatype AgentSpec = AgentSpec(id: string, persist: bool, systemPrompt: string,
                                 loop: (Payload, string) -> LoopOutcome)

  function SystemMessage(prompt: string): Value {
    Dict(map["role" := Str("system"), "content" := Str(prompt)])
  }

  /** The messages of a conversation that starts afresh. */
  function Opening(spec: AgentSpec): Payload {
    if spec.systemPrompt == "" then [] else [SystemMessage(spec.systemPrompt)]
  }

  /** A new instance of a persistent agent waits with the system prompt until it has looked
      for a stored session. */
  function NewMessages(spec: AgentSpec): Payload {
    if spec.persist then [] else Opening(spec)
  }

  /** The messages a run starts from, given what the store answers at the parent. */
  function Ensured(spec: AgentSpec, messages: Payload, stored: Option<Payload>): Payload {
    if !spec.persist || messages != [] then messages
    else if stored.Some? then stored.value
    else Opening(spec)
  }

  /** The text of the last assistant or tool message that has any. */
  function LastCompletion(messages: Payload): string {
    if messages == [] then ""
    else
      var m := messages[|messages| - 1];
      if Speaks(m) then FieldOf(m, "content")
      else LastCompletion(messages[..|messages| - 1])
  }

  predicate Speaks(m: Value) {
    FieldOf(m, "role") in {"assistant", "tool"} && FieldOf(m, "content") != ""
  }

  /** The completion is the text of the last message that speaks, and empty if none does. */
  lemma {:induction false} CompletionIsTheLastWord(messages: Payload)
    ensures LastCompletion(messages) == "" <==> forall i :: 0 <= i < |messages| ==> !Speaks(messages[i])
    ensures LastCompletion(messages) != "" ==>
      exists i :: 0 <= i < |messages| && Speaks(messages[i])
        && LastCompletion(messages) == FieldOf(messages[i], "content")
                  && forall j :: i < j < |messages| ==> !Speaks(messages[j])
  {
    if messages != [] && !Speaks(messages[|messages| - 1]) {
      CompletionIsTheLastWord(messages[..|messages| - 1]);
    }
  }

  /** What the store answers for an agent at a parent checkpoint; none is asked for without
      one. */
  ghost function StoredAt(view: map<string, ThreadSpec.Thread>, thread: string, parent: string,
                          agent: string): Option<Payload> {
    if parent == "" || thread == "" then None else ThreadSpec.AgentSession(ThreadOf(view, thread), parent, agent)
  }

  class Instance {
    const spec: AgentSpec
    var messages: Payload

    constructor (spec: AgentSpec)
      ensures this.spec == spec && messages == NewMessages(spec)
    {
      this.spec := spec;
      messages := if !spec.persist && spec.systemPrompt != "" then [SystemMessage(spec.systemPrompt)] else [];
    }

    method EnsureSession(store: DurableMemory, thread: string, parent: string)
      modifies this
      ensures messages == Ensured(spec, old(messages), StoredAt(store.View(), thread, parent, spec.id))
    {
      if !spec.persist || messages != [] {
        return;
      }
      if parent != "" && thread != "" {
        var stored := store.GetAgentSession(thread, parent, spec.id);
        if stored.Some? {
          messages := stored.value;
          return;
        }
      }
      if spec.systemPrompt != "" {
        messages := messages + [SystemMessage(spec.systemPrompt)];
      }
    }

    method RegisterSession(collector: ArtifactCollector) returns (err: Option<Error>)
      requires collector.Valid()
      modifies collector
      ensures collector.Valid()
      ensures var a := Artifact(AGENT_SESSION, spec.id, messages);
        && err == (if spec.persist then RegisterError(old(collector.list), a) else None)
        && collector.list == if spec.persist && err.None? then old(collector.list) + [a] else old(collector.list)
    {
      if !spec.persist {
        return None;
      }
      err := collector.Register(Artifact(AGENT_SESSION, spec.id, messages));
    }

    /** Load, run the loop, register; a failed loop registers nothing. */
    method RunOnce(store: DurableMemory, collector: ArtifactCollector, thread: string, parent: string, input: string)
      returns (text: string, err: Option<Error>)
      requires collector.Valid()
      modifies this, collector
      ensures collector.Valid()
      ensures var outcome := spec.loop(Ensured(spec, old(messages),
                                               StoredAt(old(store.View()), thread, parent, spec.id)), input);
        var a := Artifact(AGENT_SESSION, spec.id, outcome.messages);
        && messages == outcome.messages && text == LastCompletion(outcome.messages)
        && err == (if outcome.LoopFailed? then Some(NodeFailed)
                   else if spec.persist then RegisterError(old(collector.list), a) else None)
        && collector.list == if outcome.Ran? && spec.persist && err.None? then old(collector.list) + [a]
          else old(collector.list)
    {
      EnsureSession(store, thread, parent);
      var outcome := spec.loop(messages, input);
      messages := outcome.messages;
      text := LastCompletion(messages);
      if outcome.LoopFailed? {
        return text, Some(NodeFailed);
      }
      err := RegisterSession(collector);
    }
  }

  // --------------------------------------------------------- workers with a session

  function StoredIn(sessions: map<string, Payload>, agent: string): Option<Payload> {
    if agent in sessions then Some(sessions[agent]) else None
  }

  /** The messages a visit of this agent starts from. */
  function VisitStart(spec: AgentSpec, sessions: map<string, Payload>): Payload {
    Ensured(spec, NewMessages(spec), StoredIn(sessions, spec.id))
  }

  type Prompt = (State, string) -> string

  /** A supervisor worker that builds a fresh instance for every visit. */
  function SessionBody(spec: AgentSpec, prompt: Prompt): Body {
    (i: NodeInput, task: string) =>
      match spec.loop(VisitStart(spec, i.sessions), prompt(i.state, task))
      case LoopFailed(_) => Broke
      case Ran(messages) => Reported(LastCompletion(messages),
                                     if spec.persist then [Artifact(AGENT_SESSION, spec.id, messages)] else [])
  }

  /** One visit with a real instance, collector and store does what the body function says:
      same success, same text, same artifacts. */
  method Visit(spec: AgentSpec, prompt: Prompt, store: DurableMemory, thread: string, parent: string, state: State,
               resume: Value, task: string)
    returns (result: WorkResult)
    requires thread != "" && spec.id != ""
    ensures var sessions := SeenSessions(ThreadOf(old(store.View()), thread), parent);
      result == SessionBody(spec, prompt)(NodeInput(state, resume, sessions), task)
  {
    ghost var view := store.View();
    var inst := new Instance(spec);
    var collector := new ArtifactCollector();
    assert store.View() == view;
    var text, err := inst.RunOnce(store, collector, thread, parent, prompt(state, task));
    if err.Some? {
      return Broke;
    }
    return Reported(text, collector.list);
  }
}
