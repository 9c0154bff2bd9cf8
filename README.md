# Agent manager answer policy (Cheshire Cat core) in Dafny

This project models `AgentManager`, the class that answers each user turn of the
Cheshire Cat assistant. It gets prompt fragments and the list of allowed tools
from the plugin hooks. When any tool is allowed, it runs a LangChain tool agent.
It keeps that agent's answer unless the answer's `output` is exactly the
sentinel `"?"`. Otherwise it runs a single-shot memory chain over
`prompt_prefix + prompt_suffix` and copies that chain's `text` into `output`.

Layout:

- `records.dfy` (module `Records`): the dictionaries that flow between the
  manager and its chains. String values are `Text`. Every other value is
  `Opaque`. `Outcome` is a value or a propagating exception, either a
  `KeyError` or an exception raised by a collaborator.
- `prompts.dfy` (module `Prompts`): the tool agent's configuration, namely its
  prompt text, input variables, tool-name list and stop sequence. Also the
  memory chain's prompt.
- `policy.dfy` (module `Policy`): the collaborators (hook results, tool-agent
  executor, memory chain) as function values in a `Cat`. Also the call trace
  (`Call`), the reference policy `AgentTurn`, and the lemmas about that policy.
- `agent_manager.dfy` (module `LookingGlass`): class `AgentManager` with
  `ExecuteToolAgent`, `ExecuteMemoryChain` and `ExecuteAgent`. Each is written
  step by step like the source and proved against the reference functions.
  Each method records the collaborator calls it made in a ghost trace, so
  "not called" and "called with these arguments" can be stated.

What the code does on the paths that are easy to misread:

- No error in the tool path is absorbed. There is no `try` around
  `core/cat/looking_glass/agent_manager.py:142-144`, so an exception raised by the
  tool agent propagates out of the turn. A tool record without `output` raises
  `KeyError` the same way. `Policy.ToolFailurePropagates` states this.
- The memory chain returns its own dictionary with `output` set to `text` and
  every other entry unchanged (`agent_manager.py:106-108`). `Policy.RelabelOutput`
  states this. A chain record without `text` raises `KeyError`.
- No iteration cap, stuck-tool detection or action parsing exists in this file.
  They live in LangChain's `AgentExecutor` and in `ToolOutputParser`, which are
  not part of this model.

## Model

| member | source | states |
|---|---|---|
| `LookingGlass.AgentManager.constructor` | core/cat/looking_glass/agent_manager.py:24-25 | the manager keeps the `cat` it is given |
| `Prompts.ToolNames` | core/cat/looking_glass/agent_manager.py:30 | the allowed names are the tools' names, one per tool, in list order |
| `Prompts.ToolAgentSetup` | core/cat/looking_glass/agent_manager.py:28-78 | the tool agent gets the tool template, input variables exactly `["input","intermediate_steps"]`, the tools themselves, their names in order as allowed tools, stop sequences exactly `["\nObservation:"]`, and intermediate steps returned |
| `Prompts.AllowedNamesAreToolNames` | core/cat/looking_glass/agent_manager.py:30-68 | a name is allowed to the tool agent if and only if some given tool has that name |
| `Prompts.ToolTemplateTeachesSentinel` | core/cat/looking_glass/agent_manager.py:33-50 | the tool prompt tells the model to reply `Final Answer: ?` when no tool is useful, the same sentinel the manager tests. It also contains the `\nObservation:` stop sequence |
| `Prompts.MemoryPrompt` | core/cat/looking_glass/agent_manager.py:90-98 | the memory template is the prefix followed by the suffix, nothing else, over exactly the variables `input`, `chat_history`, `episodic_memory`, `declarative_memory` |
| `Policy.RelabelOutput` | core/cat/looking_glass/agent_manager.py:106-108 | the memory record comes back with `output` equal to its `text`, one key `output` added at most, and every other entry unchanged. It raises `KeyError("text")` exactly when `text` is missing |
| `Policy.TurnCallOrder` | core/cat/looking_glass/agent_manager.py:122-149 | every turn first makes the five hook calls in source order, the prompt hook receiving the default variable list and the three prompt parts joined by spaces. It then runs the tool agent at most once and the memory chain at most once, never the tool agent after the memory chain |
| `Policy.NoToolsMeansMemoryChain` | core/cat/looking_glass/agent_manager.py:139-147 | with an empty allowed-tools list the tool agent is never run. The only chain call is the memory chain, and the turn returns exactly its re-labelled record |
| `Policy.SentinelFallsBackToMemoryChain` | core/cat/looking_glass/agent_manager.py:141-147 | when the tool agent's output is exactly `"?"`, the memory chain runs once after it, with the same agent input and the hooks' prefix and suffix, and its record is returned instead |
| `Policy.ToolAnswerKept` | core/cat/looking_glass/agent_manager.py:141-149 | when the tool agent's output is anything other than exactly `"?"` (`" ?"`, `"? "` or a non-string included), its record is returned unchanged and the memory chain is not run |
| `Policy.ToolFailurePropagates` | core/cat/looking_glass/agent_manager.py:142-144 | an exception from the tool agent, or its record lacking `output`, makes the turn raise that exception or `KeyError("output")`, and the memory chain is not run |
| `Policy.MemoryAnswerOutputIsText` | core/cat/looking_glass/agent_manager.py:146-149 | whenever the memory chain ran and the turn returns a record, that record's `output` equals its `text` |
| `Policy.TurnIgnoresInstructionsAndVariables` | core/cat/looking_glass/agent_manager.py:125-147 | changing the format instructions or the variable list returned by `before_agent_creates_prompt` changes neither the returned record nor any chain call |
| `LookingGlass.AgentManager.ExecuteToolAgent` | core/cat/looking_glass/agent_manager.py:28-81 | the executor is called once, with the configuration `ToolAgentSetup` describes and the agent input, and its result is returned as is |
| `LookingGlass.AgentManager.ExecuteMemoryChain` | core/cat/looking_glass/agent_manager.py:84-108 | the memory chain is called once, with the prompt `MemoryPrompt` describes and the agent input. The record's in-place update yields the record `RelabelOutput` describes, so `output` equals `text` |
| `LookingGlass.AgentManager.ExecuteAgent` | core/cat/looking_glass/agent_manager.py:111-149 | the flag-and-reassignment code returns exactly the record and makes exactly the calls of the reference policy `AgentTurn`, which the `Policy` lemmas above characterise |

## Left out

- Hooks: the plugin hook system (`mad_hatter.execute_hook`) is not modelled. Each hook's result is an arbitrary input held in `Hooks`, and the prompt hook is an arbitrary function whose result the manager computes and then never uses.
- LangChain internals: `AgentExecutor`'s action/observation loop, `LLMSingleActionAgent`, `LLMChain` and prompt rendering are foreign library code. They are opaque functions from their configuration and the agent input to a record or an exception. Their iteration cap and error handling are therefore not modelled.
- Tool prompt and parser: `ToolPromptTemplate` and `ToolOutputParser` are imported from files that are not part of this model. Scratchpad formatting and action parsing are left out.
- The language model and tool side effects: the LLM call and tool invocation are network and external effects. They are folded into the two opaque chain functions. Within one turn their determinism loses nothing, because each runs at most once.
- Across turns: `AgentManager.cat` is a constant, so the model's manager gives the same turn for the same input every time. In the source, `self.cat.mad_hatter` (plugins switched on or off) and `self.cat.llm` (sampling) can answer differently on each call to `execute_agent`. The model states nothing about how one turn relates to the next.
- Hook errors: hooks are modelled as never raising and as always returning strings for the prefix, instructions and suffix. In the source, a hook that raises propagates before any chain runs (`agent_manager.py:124-139`). A non-string prompt part makes `" ".join` raise `TypeError` (`agent_manager.py:137`). Neither error path is modelled.
- Logging: the logging of the tool prompt is I/O with no effect on results.
- Verbosity: the `verbose=True` flags only affect logging.
- Key order: records are Dafny maps, so the insertion order of a Python dictionary's keys is not modelled.
- Value equality: only a string value can equal the sentinel. A non-string `output` compares unequal to `"?"`, as Python's `!=` does for the values a chain returns.
