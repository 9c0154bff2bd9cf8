/** The agent manager: builds the tool agent or the memory chain for one turn
    and decides which answer the turn returns. */
module LookingGlass {
  import opened Records
  import opened Prompts
  import opened Policy

  class AgentManager {
    /** The collaborators the manager reaches through its `cat`. */
    const cat: Cat

    constructor (cat: Cat)
      ensures this.cat == cat
    {
      this.cat := cat;
    }

    /** Builds the tool agent over `allowedTools` and runs its executor once.
        Whatever the executor returns or raises is passed on as is. */
    method ExecuteToolAgent(agentInput: AgentInput, allowedTools: seq<Tool>)
      returns (out: Outcome<Record>, ghost calls: seq<Call>)
      ensures out == cat.runToolAgent(ToolAgentSetup(allowedTools), agentInput)
      ensures calls == [ToolAgentRun(ToolAgentSetup(allowedTools), agentInput)]
      ensures calls[0].config.allowedTools == ToolNames(allowedTools)
      ensures calls[0].config.stop == [ObservationStop]
    {
      var agent := ToolAgentSetup(allowedTools);
      calls := [ToolAgentRun(agent, agentInput)];
      out := cat.runToolAgent(agent, agentInput);
    }

    /** Runs the memory chain over `promptPrefix + promptSuffix` once and
        copies its `text` into its `output`, in place. */
    method ExecuteMemoryChain(agentInput: AgentInput, promptPrefix: string, promptSuffix: string)
      returns (out: Outcome<Record>, ghost calls: seq<Call>)
      ensures out == MemoryRun(cat, agentInput, promptPrefix, promptSuffix)
      ensures calls == [MemoryChainRun(MemoryPrompt(promptPrefix, promptSuffix), agentInput)]
      ensures out.Ok? ==> out.value["output"] == out.value["text"]
    {
      var memoryPrompt := MemoryPrompt(promptPrefix, promptSuffix);
      calls := [MemoryChainRun(memoryPrompt, agentInput)];
      out := cat.runMemoryChain(memoryPrompt, agentInput);
      if out.Fail? {
        return;
      }
      var record := out.value;
      if "text" !in record {
        out := Fail(KeyError("text"));
        return;
      }
      record := record["output" := record["text"]];
      out := Ok(record);
    }

    /** One turn: executes the hooks, runs the tool agent when any tool is
        allowed, and runs the memory chain when no tool was allowed or the
        tool agent answered exactly the sentinel. */
    method ExecuteAgent(agentInput: AgentInput) returns (out: Outcome<Record>, ghost calls: seq<Call>)
      ensures out == AgentTurn(cat, agentInput).out
      ensures calls == AgentTurn(cat, agentInput).calls
    {
      var hooks := cat.hooks;
      var promptPrefix := hooks.prefix;
      var promptFormatInstructions := hooks.instructions;
      var promptSuffix := hooks.suffix;
      calls := [Hook("agent_prompt_prefix"), Hook("agent_prompt_instructions"), Hook("agent_prompt_suffix")];

      var inputVariables := AgentVariables;
      var promptText := promptPrefix + " " + promptFormatInstructions + " " + promptSuffix;
      calls := calls + [PromptHook(inputVariables, promptText)];
      inputVariables := hooks.beforeAgentCreatesPrompt(inputVariables, promptText);

      var allowedTools := hooks.allowedTools;
      calls := calls + [Hook("agent_allowed_tools")];

      var toolsAreEnough := false;
      if |allowedTools| > 0 {
        ghost var toolCalls;
        out, toolCalls := ExecuteToolAgent(agentInput, allowedTools);
        calls := calls + toolCalls;
        if out.Fail? {
          return;
        }
        if "output" !in out.value {
          out := Fail(KeyError("output"));
          return;
        }
        toolsAreEnough := out.value["output"] != Text(Sentinel);
      }

      if !toolsAreEnough {
        ghost var memoryCalls;
        out, memoryCalls := ExecuteMemoryChain(agentInput, promptPrefix, promptSuffix);
        calls := calls + memoryCalls;
      }
    }
  }
}
