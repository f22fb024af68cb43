/** The guide agent: a two-node graph ("agent", "tools") over a growing
    message list, and the assembly of one request's conversation. The hosted
    model and the tool implementations are parameters. */
module AiService {
  import opened Messages
  import opened HistoryManager

  /** What the tool-bound model returns: reply text and requested tool calls. */
  datatype ModelReply = ModelReply(content: string, toolCalls: seq<ToolCall>)

  /** An `AIGuideAgent` once constructed: the model with the two tools bound
      and the tool runner. Neither changes after construction, and both may
      raise. */
  datatype GuideAgent = GuideAgent(
    modelWithTools: seq<Message> -> Call<ModelReply>,
    runTool: ToolCall -> Call<string>)

  /** The graph's nodes; `End` is the terminal node. */
  datatype Node = Agent | Tools | End

  /** How a bounded run of the graph ends. `OutOfFuel` is a device of this
      model: the graph has no round limit of its own. */
  datatype Outcome<T> = Finished(value: T) | Failed | OutOfFuel

  const SystemPromptText: string :=
    "You are a specialized AI assistant for the 'Colorado Explorer App'. "
    + "Your name is 'Explorer'. You are friendly, enthusiastic, and an expert on all things Colorado. "
    + "Your primary goal is to provide personalized, helpful, and engaging travel recommendations. "
    + "Always restrict your answers to the state of Colorado. "
    + "You have two types of tools: "
    + "1. `search_colorado_places`: Use this for finding specific locations, businesses, and addresses. "
    + "2. `timed_web_search`: Use this for everything else, including real-time information like events, weather, news, temporary closures, and general knowledge questions about Colorado's history or culture."
    + "IMPORTANT: You must respond in the same language as the user's prompt. If the user asks a question in Spanish, your entire response must be in fluent, natural Spanish."

  /** The instruction prepended to every request; it has the human role. */
  const SystemPrompt: Message := Human(SystemPromptText)

  /** The router after the agent node: "end" when the model's last reply
      requests no tool, "continue" otherwise. */
  function ShouldContinue(messages: seq<Message>): (decision: string)
    requires EndsInModelReply(messages)
    ensures decision == "end" <==> Last(messages).toolCalls == []
    ensures decision == "continue" <==> Last(messages).toolCalls != []
  {
    var lastMessage := Last(messages);
    if lastMessage.toolCalls == [] then "end" else "continue"
  }

  /** The agent node: one model invocation on the whole list, whose reply is
      the node's entire contribution to the state. */
  function CallModel(agent: GuideAgent, messages: seq<Message>): (update: Call<seq<Message>>)
    ensures update.Returned? <==> agent.modelWithTools(messages).Returned?
    ensures update.Returned? ==>
              |update.value| == 1 && update.value[0].AI? &&
              update.value[0].content == agent.modelWithTools(messages).value.content &&
              update.value[0].toolCalls == agent.modelWithTools(messages).value.toolCalls
  {
    match agent.modelWithTools(messages)
    case Raised => Raised
    case Returned(response) => Returned([AI(response.content, response.toolCalls)])
  }

  /** Runs the given tool calls in order, one tool message per call; the
      first call that raises makes the whole step raise. */
  function RunToolCalls(runTool: ToolCall -> Call<string>, calls: seq<ToolCall>): (results: Call<seq<Message>>)
    ensures results.Returned? <==> forall i :: 0 <= i < |calls| ==> runTool(calls[i]).Returned?
    ensures results.Returned? ==>
              |results.value| == |calls| &&
              forall i :: 0 <= i < |calls| ==>
                results.value[i] == Tool(runTool(calls[i]).value, calls[i].id)
  {
    if calls == [] then Returned([])
    else match runTool(calls[0])
      case Raised => Raised
      case Returned(output) =>
        match RunToolCalls(runTool, calls[1..])
        case Raised => Raised
        case Returned(rest) => Returned([Tool(output, calls[0].id)] + rest)
  }

  /** The tools node: executes the calls requested by the last model reply. */
  function ToolNode(agent: GuideAgent, messages: seq<Message>): (update: Call<seq<Message>>)
    requires EndsInModelReply(messages)
    ensures update.Returned? ==> forall m :: m in update.value ==> m.Tool?
  {
    RunToolCalls(agent.runTool, Last(messages).toolCalls)
  }

  /** The state a node is entered with: the tools node and the end follow a
      model reply, with and without tool calls respectively. */
  predicate Ready(node: Node, messages: seq<Message>)
  {
    match node
    case Agent => true
    case Tools => EndsInModelReply(messages) && Last(messages).toolCalls != []
    case End => EndsInModelReply(messages) && Last(messages).toolCalls == []
  }

  /** The graph's edges: the conditional edge out of the agent node, mapped
      through {"continue": tools, "end": END}, and tools -> agent. */
  function Route(node: Node, messages: seq<Message>): (next: Node)
    requires node != End
    requires node == Agent ==> EndsInModelReply(messages)
    ensures next == Agent <==> node == Tools
    ensures next == End <==> node == Agent && Last(messages).toolCalls == []
    ensures next == Tools <==> node == Agent && Last(messages).toolCalls != []
    ensures Ready(next, messages)
  {
    match node
    case Agent => map["continue" := Tools, "end" := End][ShouldContinue(messages)]
    case Tools => Agent
  }

  /** The update a node returns for the state it is given. */
  function RunNode(agent: GuideAgent, node: Node, messages: seq<Message>): (update: Call<seq<Message>>)
    requires node != End && Ready(node, messages)
    ensures update.Returned? && node == Agent ==> EndsInModelReply(messages + update.value)
  {
    match node
    case Agent => CallModel(agent, messages)
    case Tools => ToolNode(agent, messages)
  }

  /** The graph run from `node` with at most `fuel` node executions: each
      node's update is concatenated onto the message list (the `operator.add`
      reducer), then the edges choose the next node. A finished run extends
      its input and ends in a model reply that requests no tool. */
  function Run(agent: GuideAgent, node: Node, messages: seq<Message>, fuel: nat): (r: Outcome<seq<Message>>)
    requires Ready(node, messages)
    ensures r.Finished? ==> messages <= r.value && Ready(End, r.value)
    ensures r.Finished? && node != End ==> |r.value| > |messages|
    decreases fuel
  {
    if node == End then Finished(messages)
    else if fuel == 0 then OutOfFuel
    else match RunNode(agent, node, messages)
      case Raised => Failed
      case Returned(update) =>
        var state := messages + update;
        Run(agent, Route(node, state), state, fuel - 1)
  }

  /** Fuel only cuts a run off: an outcome reached within `fuel` node
      executions is the outcome with any larger fuel. */
  lemma {:induction false} FuelMonotone(agent: GuideAgent, node: Node, messages: seq<Message>, fuel: nat, more: nat)
    requires Ready(node, messages)
    requires !Run(agent, node, messages, fuel).OutOfFuel?
    ensures Run(agent, node, messages, fuel + more) == Run(agent, node, messages, fuel)
    decreases fuel
  {
    if node != End && fuel > 0 {
      match RunNode(agent, node, messages)
      case Raised =>
      case Returned(update) =>
        var state := messages + update;
        FuelMonotone(agent, Route(node, state), state, fuel - 1, more);
    }
  }

  /** The compiled graph's invoke: enters at the agent node and steps until
      the end node (or until the fuel is spent). */
  method Invoke(agent: GuideAgent, inputs: seq<Message>, fuel: nat) returns (r: Outcome<seq<Message>>)
    ensures r == Run(agent, Agent, inputs, fuel)
    ensures r.Finished? ==> inputs < r.value && EndsInModelReply(r.value) && Last(r.value).toolCalls == []
  {
    var node := Agent;
    var messages := inputs;
    var steps := fuel;
    while node != End && steps > 0
      invariant Ready(node, messages)
      invariant Run(agent, node, messages, steps) == Run(agent, Agent, inputs, fuel)
      decreases steps
    {
      var update := RunNode(agent, node, messages);
      if update.Raised? {
        return Failed;
      }
      messages := messages + update.value;
      node := Route(node, messages);
      steps := steps - 1;
    }
    r := if node == End then Finished(messages) else OutOfFuel;
  }

  /** The conversation handed to the graph: the system prompt, the stored
      history, then the new prompt as a human message. */
  function Conversation(history: seq<Message>, prompt: string): (c: seq<Message>)
    ensures |c| == |history| + 2
    ensures c[0] == SystemPrompt && c[0].Human?
    ensures c[1..|c| - 1] == history
    ensures Last(c) == Human(prompt)
  {
    [SystemPrompt] + history + [Human(prompt)]
  }

  /** The answer `generate_guide` gives for a session with `history`: the
      content of the final state's last message, which is the model's last
      reply and requests no tool. */
  function Guide(agent: GuideAgent, history: seq<Message>, prompt: string, fuel: nat): (r: Outcome<string>)
    ensures r.Finished? <==> Run(agent, Agent, Conversation(history, prompt), fuel).Finished?
    ensures r.Failed? <==> Run(agent, Agent, Conversation(history, prompt), fuel).Failed?
    ensures r.Finished? ==>
              var final := Run(agent, Agent, Conversation(history, prompt), fuel).value;
              Conversation(history, prompt) < final && Last(final) == AI(r.value, [])
  {
    match Run(agent, Agent, Conversation(history, prompt), fuel)
    case Finished(finalMessages) => Finished(Last(finalMessages).content)
    case Failed => Failed
    case OutOfFuel => OutOfFuel
  }

  /** `generate_guide`: reads the session's history from the store (and
      changes nothing there), assembles the conversation and runs the graph. */
  method GenerateGuide(store: HistoryStore, agent: GuideAgent, userId: string, prompt: string, sessionId: string, fuel: nat)
    returns (r: Outcome<string>)
    ensures r == Guide(agent, HistoryOf(store.conversationHistory, userId, sessionId), prompt, fuel)
  {
    var chatHistory := store.GetHistory(userId, sessionId);
    var currentConversation := [SystemPrompt] + chatHistory + [Human(prompt)];
    assert currentConversation == Conversation(chatHistory, prompt);
    var finalState := Invoke(agent, currentConversation, fuel);
    match finalState
    case Finished(messages) =>
      var responseMessage := Last(messages);
      r := Finished(responseMessage.content);
    case Failed => r := Failed;
    case OutOfFuel => r := OutOfFuel;
  }

  /** A first reply that requests no tool ends the run: the model is invoked
      once and its reply is the answer, verbatim. */
  lemma DirectAnswer(agent: GuideAgent, inputs: seq<Message>, fuel: nat, content: string)
    requires fuel >= 1
    requires agent.modelWithTools(inputs) == Returned(ModelReply(content, []))
    ensures Run(agent, Agent, inputs, fuel) == Finished(inputs + [AI(content, [])])
  {
    var state := inputs + [AI(content, [])];
    assert Route(Agent, state) == End;
  }

  /** One tool round: a reply requesting one call, the call's result, then a
      reply requesting none gives two model invocations, one tool invocation,
      and the second reply as the last message. */
  lemma OneToolRound(agent: GuideAgent, inputs: seq<Message>, fuel: nat,
                     first: string, call: ToolCall, output: string, second: string)
    requires fuel >= 3
    requires agent.modelWithTools(inputs) == Returned(ModelReply(first, [call]))
    requires agent.runTool(call) == Returned(output)
    requires agent.modelWithTools(inputs + [AI(first, [call]), Tool(output, call.id)]) ==
               Returned(ModelReply(second, []))
    ensures Run(agent, Agent, inputs, fuel) ==
              Finished(inputs + [AI(first, [call]), Tool(output, call.id), AI(second, [])])
  {
    var afterModel := inputs + [AI(first, [call])];
    assert Route(Agent, afterModel) == Tools;
    assert [call][1..] == [];
    assert RunToolCalls(agent.runTool, []) == Returned([]);
    assert [Tool(output, call.id)] + [] == [Tool(output, call.id)];
    assert RunToolCalls(agent.runTool, [call]) == Returned([Tool(output, call.id)]);
    var afterTools := afterModel + [Tool(output, call.id)];
    assert afterTools == inputs + [AI(first, [call]), Tool(output, call.id)];
    DirectAnswer(agent, afterTools, fuel - 2, second);
    assert afterTools + [AI(second, [])] == inputs + [AI(first, [call]), Tool(output, call.id), AI(second, [])];
  }

  /** When the model answers the assembled conversation at once,
      generate_guide returns that reply's content after one invocation. */
  lemma GuideDirectAnswer(agent: GuideAgent, history: seq<Message>, prompt: string, fuel: nat, content: string)
    requires fuel >= 1
    requires agent.modelWithTools(Conversation(history, prompt)) == Returned(ModelReply(content, []))
    ensures Guide(agent, history, prompt, fuel) == Finished(content)
    ensures Run(agent, Agent, Conversation(history, prompt), fuel) ==
              Finished(Conversation(history, prompt) + [AI(content, [])])
  {
    DirectAnswer(agent, Conversation(history, prompt), fuel, content);
  }
}
