# Colorado Explorer guide: agent loop and session history, in Dafny

This project models the core of the Colorado Explorer AI guide backend. The backend has three parts:

- a process-wide conversation store, keyed by user id and then session id (`messages.dfy`, `history_manager.dfy`);
- a two-node agent graph. The `agent` node invokes a tool-bound chat model. The `tools` node runs the tool calls the model requested. The graph loops until the model replies without tool calls (`ai_service.dfy`);
- the `/generate` request handler. It runs the agent on the stored history plus the new prompt, records the prompt and the answer in the store, and echoes the session id. Any exception becomes one fixed HTTP 500 error (`guide_endpoint.dfy`).

Modelling choices:

- The hosted model and the tool implementations are not modelled. They are two function-valued fields of `GuideAgent`: `modelWithTools` maps the message list to a reply (text plus requested tool calls) or to an exception, and `runTool` maps one tool call to its result text or to an exception.
- The agent object is fixed after construction, so it is a datatype.
- The store is updated in place, so it is a class, `HistoryStore`, with one `map` field. Its two methods are proved against the functions `HistoryOf` and `WithTurn`.
- The graph's execution is a `while` loop (`Invoke`) over a growing message list. It is proved equal to the function `Run`. `Run` appends each node's update to the list, as the `operator.add` reducer does, and then follows the graph's edges.
- The graph has no round limit. Termination is therefore modelled with a `fuel` count of node executions. A run that spends its fuel ends in `OutOfFuel`, and the endpoint then replies `Unfinished` and leaves the store unchanged. This outcome is a device of the model, not a behaviour of the code.

What is proved:

- reading a session never written gives the empty history and inserts nothing;
- an update appends exactly the two messages, in order, creates missing entries, and changes no other (user, session) pair;
- the router says "end" exactly when the last reply has no tool calls;
- the `tools` node is always followed by `agent`, and the end is reached only from `agent`;
- the message list only grows: the final list extends the input;
- a finished run ends in a model reply with no tool calls, and the answer is that reply's content;
- a first reply without tool calls gives one model invocation and a verbatim answer;
- a request succeeds exactly when generation finishes. It then echoes the session id and stores only the prompt and the answer, never tool messages. An exception gives the fixed error and leaves the store unchanged;
- N successful requests to one session add 2N messages to it, alternating prompt and answer in request order. Requests to other sessions leave no trace in it.

Facts about the code that the model follows:

- the system prompt is a `HumanMessage` (app/services/ai_service.py:102), so it has the human role;
- the places lookup (app/services/location_service.py:8-24) has no exception handling and no record mapping: it returns the raw results, or the empty list when geocoding finds nothing;
- the handler takes no lock. It needs none within one process: the `async` handler never awaits, and generation and the history update are synchronous, so each request runs from the history read (app/services/ai_service.py:100) to the history write (app/api/v1/endpoints/guide.py:20-25) without yielding. Requests to one process are therefore served one after another, which is what `HandleAll` models.

## Model

| member | source | states |
|---|---|---|
| `HistoryManager.HistoryStore.constructor` | app/utils/history_manager.py:4 | the store starts as the empty table |
| `HistoryManager.HistoryStore.GetHistory` | app/utils/history_manager.py:6-8 | returns the stored list for (user, session); an absent user, or a present user without that session, gives the empty list; the method changes nothing |
| `HistoryManager.HistoryStore.UpdateHistory` | app/utils/history_manager.py:10-18 | the new table is `WithTurn` of the old one: the session's history is the old history followed by the human and then the AI message |
| `HistoryManager.WithTurn` | app/utils/history_manager.py:12-18 | the session's history gains exactly `[human, ai]` at its end; the user and session entries exist afterwards, created when absent; every other user entry, every other session of the same user and every other (user, session) history are unchanged |
| `HistoryManager.InterleaveShape` | app/utils/history_manager.py:17-18 | laying out n (human, ai) turns gives 2n messages, with turn i's human message at 2i and its AI message at 2i + 1 |
| `HistoryManager.AppendTurnsHistory` | app/utils/history_manager.py:10-18 | n successive updates of one session append the n turns, in call order, to its history, and change no other pair |
| `HistoryManager.FreshSessionTranscript` | app/utils/history_manager.py:10-18 | starting from an unwritten (user, session), n updates give a history of length 2n: human messages at even positions and AI messages at odd positions, in call order |
| `AiService.ShouldContinue` | app/services/ai_service.py:71-75 | "end" exactly when the last message requests no tool calls, "continue" exactly when it requests some |
| `AiService.CallModel` | app/services/ai_service.py:77-79 | the agent node contributes exactly one message, an AI message carrying the model's reply text and tool calls; it raises exactly when the model invocation raises |
| `AiService.RunToolCalls` | app/services/ai_service.py:85-86 | the tools step returns one tool message per requested call, in order, each carrying that call's result and id; it raises exactly when some call raises |
| `AiService.ToolNode` | app/services/ai_service.py:85-86 | the tools node contributes only tool messages |
| `AiService.Route` | app/services/ai_service.py:88-96 | tools is always followed by agent; agent is followed by END exactly when the last reply has no tool calls and by tools exactly when it has some; the node entered is ready for the list |
| `AiService.RunNode` | app/services/ai_service.py:84-86 | after the agent node's update the list ends in a model reply |
| `AiService.Run` | app/services/ai_service.py:57-58 | a finished run's final list extends its input (updates are only concatenated, so earlier messages keep their positions), is strictly longer when started at agent, and ends in an AI message without tool calls |
| `AiService.FuelMonotone` | app/services/ai_service.py:81-97 | a run that finished or failed within some fuel has the same outcome with any larger fuel, so the fuel bound only cuts runs off and never changes what they compute |
| `AiService.Invoke` | app/services/ai_service.py:81-97 | the loop entered at agent computes exactly `Run` from agent; a finished result strictly extends the input and ends in a model reply without tool calls |
| `AiService.Conversation` | app/services/ai_service.py:102-115 | the assembled list is two longer than the history; its first element is the fixed system prompt, a human-role message; the stored history follows; the last element is the new prompt as a human message |
| `AiService.Guide` | app/services/ai_service.py:115-122 | the answer exists exactly when the run from the assembled conversation finishes, and the run fails exactly when the answer fails; the final list strictly extends the conversation and its last message is a tool-call-free AI message whose content is the answer |
| `AiService.GenerateGuide` | app/services/ai_service.py:99-122 | reads the stored history without changing the store and returns `Guide` of that history |
| `AiService.DirectAnswer` | app/services/ai_service.py:88-96 | if the model's first reply requests no tool, the run ends after one model invocation with exactly that reply appended |
| `AiService.OneToolRound` | app/services/ai_service.py:88-96 | a reply requesting one call, that call's result, then a reply requesting none: the final list is the input plus these three messages, so there are two model invocations and one tool invocation |
| `AiService.GuideDirectAnswer` | app/services/ai_service.py:119-122 | when the model answers the assembled conversation without tool calls, the returned answer is that reply's content, verbatim |
| `GuideEndpoint.Handle` | app/api/v1/endpoints/guide.py:15-31 | success exactly when generation finishes, with the generated text and the request's session id; the session's history gains exactly `[Human(prompt), AI(answer)]` and no other pair changes; an exception gives status 500 with the fixed detail and leaves the table unchanged |
| `GuideEndpoint.GenerateGuideEndpoint` | app/api/v1/endpoints/guide.py:10-31 | the handler on the shared store has the reply and the new store that `Handle` describes; the history is written only after generation returns, and on failure the store is unchanged |
| `GuideEndpoint.HandleStep` | app/api/v1/endpoints/guide.py:20-25 | any one request changes a session's history only by appending the turn that request records for that session, if any |
| `GuideEndpoint.HandleKeepsAlternating` | app/api/v1/endpoints/guide.py:20-25 | if every stored history alternates human message and tool-call-free AI message, this still holds after any request; so tool messages are never persisted |
| `GuideEndpoint.HandleAllHistory` | app/api/v1/endpoints/guide.py:16-25 | after any sequence of requests, a session's history is its old history followed by exactly the turns of the successful requests to that session, in request order |
| `GuideEndpoint.SessionTurnsAll` | app/api/v1/endpoints/guide.py:20-25 | when every request goes to one session and succeeds, each request records its own turn, in order |
| `GuideEndpoint.SessionTranscript` | app/api/v1/endpoints/guide.py:16-25 | N successful requests to one session extend its history by 2N messages: request i's prompt at offset 2i and its answer at offset 2i + 1 |
| `GuideEndpoint.ToolRoundNotPersisted` | app/api/v1/endpoints/guide.py:20-25 | for a model that makes one tool round, the caller gets the second reply and the store gains only the prompt and that reply, not the tool call or its result |

## Left out

- The hosted model (`ChatGoogleGenerativeAI`, `bind_tools`, app/services/ai_service.py:62-68) is not modelled. It is the `modelWithTools` parameter. Being a function, it gives the same reply for the same message list, which the hosted model need not do.
- The tool bodies `search_colorado_places` and `timed_web_search` and the Tavily configuration (app/services/ai_service.py:16-55) are not modelled: they wrap HTTP clients and only add timing and console output. Each call's result is given by the `runTool` parameter.
- The library's ToolNode internals are not modelled. Its step is modelled as one tool message per requested call, in request order, carrying the call's id. Because `runTool` is a pure function, running the calls in parallel and running them in order give the same messages. Whether a tool error becomes a message or an exception, and what an unknown tool name gives, are left to `runTool`.
- app/services/location_service.py, app/main.py, app/core/config.py and the pydantic declarations of app/api/v1/schemas.py are not modelled beyond the `GuideRequest` and `GuideResponse` datatypes. They are client, router, configuration and record glue.
- AiService.Run: termination is bounded by a `fuel` count of node executions. The code has no round limit. A run that spends its fuel (`OutOfFuel`, and `Unfinished` at the endpoint) stands for a run that has not ended yet: `FuelMonotone` proves that more fuel never changes an outcome reached within the fuel. The graph library's own recursion limit is not modelled either.
- AiService.Invoke, AiService.Guide, AiService.GenerateGuide, GuideEndpoint.Handle, GuideEndpoint.GenerateGuideEndpoint: they inherit the same fuel bound.
- AiService.ShouldContinue requires the last message to be a model reply. The code would raise on a message without `tool_calls`, but the router only ever runs after the agent node has appended a reply.
- Message content is text only. The library's structured content, message ids and metadata are not modelled.
- The error-logging `print` in the endpoint's exception branch (app/api/v1/endpoints/guide.py:30) is not modelled.
- Several worker processes would each keep a separate table; the model has one process and one table.
