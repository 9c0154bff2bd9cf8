/** The per-turn answer-selection policy of the agent manager, as a reference
    function over opaque collaborators, with the properties of that policy.

    The collaborators are the hook system (its results are arbitrary inputs),
    the tool agent executor and the memory chain (both opaque functions from
    their configuration and the agent input to an output dictionary or an
    exception). Each collaborator is called at most once per turn, so modelling
    them as functions loses nothing of the language model's nondeterminism. */
module Policy {
  import opened Records
  import opened Prompts

  /** The results of the hooks the agent manager executes in one turn. */
  datatype Hooks = Hooks(
    prefix: string,
    instructions: string,
    suffix: string,
    beforeAgentCreatesPrompt: (seq<string>, string) -> seq<string>,
    allowedTools: seq<Tool>)

  /** The collaborators of the agent manager. */
  datatype Cat = Cat(
    hooks: Hooks,
    runToolAgent: (ToolAgentConfig, AgentInput) -> Outcome<Record>,
    runMemoryChain: (PromptTemplate, AgentInput) -> Outcome<Record>)

  /** One call to a collaborator, with the arguments it received. */
  datatype Call =
    | Hook(name: string)
    | PromptHook(variables: seq<string>, promptText: string)
    | ToolAgentRun(config: ToolAgentConfig, input: AgentInput)
    | MemoryChainRun(prompt: PromptTemplate, input: AgentInput)

  /** What one turn produces: the returned record (or exception) and the
      collaborator calls it made, in order. */
  datatype Turn = Turn(out: Outcome<Record>, calls: seq<Call>)

  /** The variable list handed to the `before_agent_creates_prompt` hook. */
  const AgentVariables: seq<string> :=
    ["input", "chat_history", "episodic_memory", "declarative_memory", "agent_scratchpad"]

  /** The hook calls every turn starts with, in the order they are made. The
      prompt hook receives the three prompt parts joined by single spaces. */
  function HookCalls(h: Hooks): seq<Call> {
    [ Hook("agent_prompt_prefix"),
      Hook("agent_prompt_instructions"),
      Hook("agent_prompt_suffix"),
      PromptHook(AgentVariables, h.prefix + " " + h.instructions + " " + h.suffix),
      Hook("agent_allowed_tools") ]
  }

  /** The memory chain's record re-labelled so that its answer is also its
      output; a record without `text` raises a `KeyError`. */
  function RelabelOutput(r: Record): (o: Outcome<Record>)
    ensures o.Fail? <==> "text" !in r
    ensures o.Fail? ==> o.error == KeyError("text")
    ensures o.Ok? ==> o.value.Keys == r.Keys + {"output"}
    ensures o.Ok? ==> o.value["output"] == r["text"] && o.value["text"] == r["text"]
    ensures o.Ok? ==> forall k :: k in r && k != "output" ==> o.value[k] == r[k]
  {
    if "text" in r then Ok(r["output" := r["text"]]) else Fail(KeyError("text"))
  }

  /** The memory chain run over `prefix + suffix`, its record re-labelled. */
  function MemoryRun(cat: Cat, input: AgentInput, prefix: string, suffix: string): Outcome<Record> {
    match cat.runMemoryChain(MemoryPrompt(prefix, suffix), input)
    case Fail(e) => Fail(e)
    case Ok(r) => RelabelOutput(r)
  }

  /** The reference policy of one turn: run the tool agent when the hooks
      allow any tool, keep its record unless its output is exactly the
      sentinel, and otherwise run the memory chain. Exceptions propagate. */
  function AgentTurn(cat: Cat, input: AgentInput): Turn {
    var h := cat.hooks;
    var memoryCall := MemoryChainRun(MemoryPrompt(h.prefix, h.suffix), input);
    if |h.allowedTools| == 0 then
      Turn(MemoryRun(cat, input, h.prefix, h.suffix), HookCalls(h) + [memoryCall])
    else
      var config := ToolAgentSetup(h.allowedTools);
      var toolCall := ToolAgentRun(config, input);
      match cat.runToolAgent(config, input)
      case Fail(e) => Turn(Fail(e), HookCalls(h) + [toolCall])
      case Ok(r) =>
        if "output" !in r then Turn(Fail(KeyError("output")), HookCalls(h) + [toolCall])
        else if r["output"] == Text(Sentinel) then
          Turn(MemoryRun(cat, input, h.prefix, h.suffix), HookCalls(h) + [toolCall, memoryCall])
        else Turn(Ok(r), HookCalls(h) + [toolCall])
  }

  /** The tool agent runs at most once, the memory chain at most once, and
      never the tool agent after the memory chain. */
  predicate ChainsOnceInOrder(calls: seq<Call>) {
    && (forall i, j :: 0 <= i < j < |calls| && calls[j].ToolAgentRun? ==>
          !calls[i].ToolAgentRun? && !calls[i].MemoryChainRun?)
    && (forall i, j :: 0 <= i < j < |calls| && calls[j].MemoryChainRun? ==> !calls[i].MemoryChainRun?)
  }

  /** No collaborator call in `calls` is a tool-agent run. */
  predicate NoToolRun(calls: seq<Call>) {
    forall i :: 0 <= i < |calls| ==> !calls[i].ToolAgentRun?
  }

  /** No collaborator call in `calls` is a memory-chain run. */
  predicate NoMemoryRun(calls: seq<Call>) {
    forall i :: 0 <= i < |calls| ==> !calls[i].MemoryChainRun?
  }

  /** Every turn makes the five hook calls first, then runs the chains at
      most once each, the tool agent first. */
  lemma TurnCallOrder(cat: Cat, input: AgentInput)
    ensures |AgentTurn(cat, input).calls| > 5
    ensures AgentTurn(cat, input).calls[..5] == HookCalls(cat.hooks)
    ensures ChainsOnceInOrder(AgentTurn(cat, input).calls)
  {
    var calls := AgentTurn(cat, input).calls;
    var hooks := HookCalls(cat.hooks);
    assert calls[..5] == hooks;
    forall i | 0 <= i < 5 ensures !calls[i].ToolAgentRun? && !calls[i].MemoryChainRun? {
      assert calls[i] == hooks[i];
    }
  }

  /** With no allowed tool, the tool agent is never run and the turn returns
      exactly the memory chain's re-labelled record. */
  lemma NoToolsMeansMemoryChain(cat: Cat, input: AgentInput)
    requires |cat.hooks.allowedTools| == 0
    ensures AgentTurn(cat, input).out == MemoryRun(cat, input, cat.hooks.prefix, cat.hooks.suffix)
    ensures AgentTurn(cat, input).calls
         == HookCalls(cat.hooks) + [MemoryChainRun(MemoryPrompt(cat.hooks.prefix, cat.hooks.suffix), input)]
    ensures NoToolRun(AgentTurn(cat, input).calls)
  {
  }

  /** When the tool agent answers exactly the sentinel, the memory chain runs
      once, after it, on the same agent input and the hooks' prefix and
      suffix, and its record is returned instead. */
  lemma SentinelFallsBackToMemoryChain(cat: Cat, input: AgentInput, r: Record)
    requires |cat.hooks.allowedTools| > 0
    requires cat.runToolAgent(ToolAgentSetup(cat.hooks.allowedTools), input) == Ok(r)
    requires "output" in r && r["output"] == Text(Sentinel)
    ensures AgentTurn(cat, input).out == MemoryRun(cat, input, cat.hooks.prefix, cat.hooks.suffix)
    ensures AgentTurn(cat, input).calls
         == HookCalls(cat.hooks)
            + [ ToolAgentRun(ToolAgentSetup(cat.hooks.allowedTools), input),
                MemoryChainRun(MemoryPrompt(cat.hooks.prefix, cat.hooks.suffix), input) ]
  {
  }

  /** When the tool agent's output is anything but exactly the sentinel (a
      `" ?"` or `"? "` included, or a value that is not a string), its record
      is returned unchanged and the memory chain is not run. */
  lemma ToolAnswerKept(cat: Cat, input: AgentInput, r: Record)
    requires |cat.hooks.allowedTools| > 0
    requires cat.runToolAgent(ToolAgentSetup(cat.hooks.allowedTools), input) == Ok(r)
    requires "output" in r && r["output"] != Text(Sentinel)
    ensures AgentTurn(cat, input).out == Ok(r)
    ensures AgentTurn(cat, input).calls
         == HookCalls(cat.hooks) + [ToolAgentRun(ToolAgentSetup(cat.hooks.allowedTools), input)]
    ensures NoMemoryRun(AgentTurn(cat, input).calls)
  {
  }

  /** An exception in the tool path is not absorbed: the turn raises it and
      the memory chain is not run. A tool record without `output` raises a
      `KeyError` the same way. */
  lemma ToolFailurePropagates(cat: Cat, input: AgentInput)
    requires |cat.hooks.allowedTools| > 0
    requires var o := cat.runToolAgent(ToolAgentSetup(cat.hooks.allowedTools), input);
             o.Fail? || "output" !in o.value
    ensures AgentTurn(cat, input).out.Fail?
    ensures var o := cat.runToolAgent(ToolAgentSetup(cat.hooks.allowedTools), input);
            AgentTurn(cat, input).out.error == if o.Fail? then o.error else KeyError("output")
    ensures NoMemoryRun(AgentTurn(cat, input).calls)
  {
  }

  /** A record the memory path returns always has `output` equal to its
      `text`. */
  lemma MemoryAnswerOutputIsText(cat: Cat, input: AgentInput)
    requires AgentTurn(cat, input).out.Ok?
    requires !NoMemoryRun(AgentTurn(cat, input).calls)
    ensures "output" in AgentTurn(cat, input).out.value && "text" in AgentTurn(cat, input).out.value
    ensures AgentTurn(cat, input).out.value["output"] == AgentTurn(cat, input).out.value["text"]
  {
  }

  /** The format instructions and the variable list returned by the
      `before_agent_creates_prompt` hook never reach either chain: changing
      them changes neither the returned record nor any chain call. */
  lemma TurnIgnoresInstructionsAndVariables(
    cat: Cat, input: AgentInput, instructions: string, adjust: (seq<string>, string) -> seq<string>)
    ensures var other := cat.(hooks := cat.hooks.(instructions := instructions, beforeAgentCreatesPrompt := adjust));
            && AgentTurn(other, input).out == AgentTurn(cat, input).out
            && AgentTurn(other, input).calls[5..] == AgentTurn(cat, input).calls[5..]
  {
  }
}
