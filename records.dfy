/** The dictionaries that flow between the agent manager and its chains.
    A chain's input and its output are Python dicts keyed by strings; the
    agent manager only ever reads or writes string entries of them, so every
    other value (the list of intermediate steps, a chat-history object) is
    kept opaque. */
module Records {

  /** A value stored under a key of a chain dictionary. */
  datatype Value = Text(s: string) | Opaque(id: nat)

  /** A chain's output dictionary (also the shape of the agent input). */
  type Record = map<string, Value>

  /** The dictionary of conversational context handed to `execute_agent`
      (`input`, `chat_history`, `episodic_memory`, `declarative_memory`, ...). */
  type AgentInput = map<string, Value>

  /** What can go wrong in one turn: a dictionary lookup on a missing key
      (Python's `KeyError`), or an exception raised by a collaborator. */
  datatype Error = KeyError(key: string) | Raised(message: string)

  /** The outcome of a Python call: a value, or an exception that propagates. */
  datatype Outcome<T> = Ok(value: T) | Fail(error: Error)
}
