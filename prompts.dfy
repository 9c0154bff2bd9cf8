/** The configuration objects the agent manager builds before it runs a chain:
    the tool agent's prompt, tool-name list and stop sequence, and the memory
    chain's prompt. */
module Prompts {

  /** A tool as the agent manager sees it: its name and the description shown
      to the language model. Invoking it is the tool executor's business. */
  datatype Tool = Tool(name: string, description: string)

  /** A prompt template: its text and the variables the caller must supply. */
  datatype PromptTemplate = PromptTemplate(template: string, inputVariables: seq<string>)

  /** The arguments with which the tool agent and its executor are built. */
  datatype ToolAgentConfig = ToolAgentConfig(
    prompt: PromptTemplate,
    tools: seq<Tool>,
    allowedTools: seq<string>,
    stop: seq<string>,
    returnIntermediateSteps: bool)

  /** The answer a chain gives when it has nothing to say: the tool prompt tells
      the model to reply with it, and the agent manager falls back on it. */
  const Sentinel: string := "?"

  /** The stop sequence of the tool agent: generation is cut before the model
      can write an observation of its own. */
  const ObservationStop: string := "\nObservation:"

  /** The tool agent's prompt text. `tools`, `tool_names` and
      `agent_scratchpad` are filled in by the tool prompt template itself.
      It is assembled from pieces so that the sentinel reply and the stop
      sequence it mentions are visible to the verifier. */
  const ToolTemplate: string :=
    ToolTemplateIntro + SentinelReply + ToolTemplateFormat + ObservationStop + ToolTemplateEnd

  /** The reply the tool prompt asks for when no tool is useful. */
  const SentinelReply: string := "Final Answer: " + Sentinel

  const ToolTemplateIntro: string :=
    "Answer the following question: `{input}`\nYou can only reply using these tools:\n\n{tools}\n\n"
    + "If no tool is useful, just reply \""

  const ToolTemplateFormat: string :=
    "\"\nIf you want to use a tool, use the following format:\n\n"
    + "Action: the name of the action to take, should be one of [{tool_names}]\n"
    + "Action Input: the input to the action"

  const ToolTemplateEnd: string :=
    " the result of the action\n"
    + "... (this Action/Action Input/Observation can repeat N times)\n"
    + "Final Answer: the final answer to the original input question (or \"?\" if no tool is adapt)\n\n"
    + "Begin!\n\nQuestion: {input}\n{agent_scratchpad}"

  /** Variables the caller supplies to the tool prompt. */
  const ToolInputVariables: seq<string> := ["input", "intermediate_steps"]

  /** Variables of the memory prompt. */
  const MemoryInputVariables: seq<string> := ["input", "chat_history", "episodic_memory", "declarative_memory"]

  /** `[t.name for t in allowed_tools]`: the tools' names, in list order. */
  function ToolNames(tools: seq<Tool>): (names: seq<string>)
    ensures |names| == |tools|
    ensures forall i :: 0 <= i < |tools| ==> names[i] == tools[i].name
  {
    if tools == [] then [] else [tools[0].name] + ToolNames(tools[1..])
  }

  /** The tool agent built for a non-empty or empty list of allowed tools. */
  function ToolAgentSetup(tools: seq<Tool>): (c: ToolAgentConfig)
    ensures c.prompt.template == ToolTemplate
    ensures c.prompt.inputVariables == ["input", "intermediate_steps"]
    ensures c.tools == tools
    ensures |c.allowedTools| == |tools|
    ensures forall i :: 0 <= i < |tools| ==> c.allowedTools[i] == tools[i].name
    ensures c.stop == ["\nObservation:"]
    ensures c.returnIntermediateSteps
  {
    ToolAgentConfig(
      PromptTemplate(ToolTemplate, ToolInputVariables),
      tools,
      ToolNames(tools),
      [ObservationStop],
      true)
  }

  /** The tool agent may name exactly the tools it was given, no others. */
  lemma AllowedNamesAreToolNames(tools: seq<Tool>, n: string)
    ensures n in ToolAgentSetup(tools).allowedTools <==> exists t :: t in tools && t.name == n
  {
  }

  /** The memory chain's prompt: the prefix followed by the suffix, over the
      four memory variables. */
  function MemoryPrompt(prefix: string, suffix: string): (p: PromptTemplate)
    ensures |p.template| == |prefix| + |suffix|
    ensures p.template[..|prefix|] == prefix && p.template[|prefix|..] == suffix
    ensures p.inputVariables == ["input", "chat_history", "episodic_memory", "declarative_memory"]
  {
    PromptTemplate(prefix + suffix, MemoryInputVariables)
  }

  /** `sub` occurs in `s` at index `i`. */
  predicate OccursAt(s: string, sub: string, i: nat) {
    i + |sub| <= |s| && s[i..i + |sub|] == sub
  }

  /** `sub` occurs somewhere in `s`. */
  ghost predicate Contains(s: string, sub: string) {
    exists i: nat :: OccursAt(s, sub, i)
  }

  /** A text assembled from five pieces contains its second and its fourth piece. */
  lemma {:induction false} ContainsPieces(a: string, b: string, c: string, d: string, e: string)
    ensures Contains(a + b + c + d + e, b)
    ensures Contains(a + b + c + d + e, d)
  {
    var s := a + b + c + d + e;
    assert s[|a|..|a| + |b|] == b;
    assert OccursAt(s, b, |a|);
    assert s[|a + b + c|..|a + b + c| + |d|] == d;
    assert OccursAt(s, d, |a + b + c|);
  }

  /** The tool prompt teaches the model the sentinel reply that makes the
      agent manager fall back, and asks for observations on lines that start
      with the stop sequence. */
  lemma ToolTemplateTeachesSentinel()
    ensures Contains(ToolTemplate, "Final Answer: " + Sentinel)
    ensures Contains(ToolTemplate, ObservationStop)
  {
    ContainsPieces(ToolTemplateIntro, SentinelReply, ToolTemplateFormat, ObservationStop, ToolTemplateEnd);
  }
}
