/** The chat-message vocabulary the agent and the history store share. */
module Messages {

  /** One tool invocation requested by the model: the tool's name, its
      arguments (kept as opaque serialised text) and the invocation id. */
  datatype ToolCall = ToolCall(name: string, args: string, id: string)

  /** A chat message. `Human` is a user turn (the fixed system prompt is one
      as well), `AI` a model turn with the tool calls it requests (empty when
      it requests none), `Tool` the result of one invocation, tagged with the
      id of the call it answers. */
  datatype Message =
    | Human(content: string)
    | AI(content: string, toolCalls: seq<ToolCall>)
    | Tool(content: string, toolCallId: string)

  /** The outcome of calling an external capability: it returns a value or
      raises an exception. */
  datatype Call<T> = Returned(value: T) | Raised

  function Last(messages: seq<Message>): Message
    requires |messages| > 0
  {
    messages[|messages| - 1]
  }

  /** The sequence ends in a message produced by the model. */
  predicate EndsInModelReply(messages: seq<Message>)
  {
    |messages| > 0 && Last(messages).AI?
  }
}
