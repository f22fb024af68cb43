/** The `/generate` handler with the HTTP layer stripped: generate the
    answer, record the turn in the store, echo the session id; any exception
    becomes one fixed internal error. */
module GuideEndpoint {
  import opened Messages
  import opened HistoryManager
  import opened AiService

  datatype GuideRequest = GuideRequest(userId: string, prompt: string, sessionId: string)

  datatype GuideResponse = GuideResponse(response: string, sessionId: string)

  datatype HttpException = HttpException(statusCode: int, detail: string)

  /** The only error a caller ever sees. */
  const InternalError: HttpException :=
    HttpException(500, "An internal error occurred while generating the guide.")

  /** What the handler gives back. `Unfinished` stands for a graph run that
      has not reached its end within the model's fuel. */
  datatype Reply = Ok(body: GuideResponse) | Err(error: HttpException) | Unfinished

  /** One request against the store `table`: the reply and the new table.
      The agent sees the history as it was before the request; the store
      gains the prompt and the answer only once generation has returned. */
  function Handle(table: Table, agent: GuideAgent, request: GuideRequest, fuel: nat): (r: (Reply, Table))
    ensures var answer := Guide(agent, HistoryOf(table, request.userId, request.sessionId), request.prompt, fuel);
            && (r.0.Ok? <==> answer.Finished?)
            && (r.0.Err? <==> answer.Failed?)
            && (r.0.Ok? ==> r.0.body.response == answer.value && r.0.body.sessionId == request.sessionId)
    ensures r.0.Err? ==> r.0.error.statusCode == 500 && r.0.error == InternalError
    ensures r.0.Ok? ==>
              HistoryOf(r.1, request.userId, request.sessionId) ==
                HistoryOf(table, request.userId, request.sessionId) +
                [Human(request.prompt), AI(r.0.body.response, [])]
    ensures forall u, s {:trigger HistoryOf(r.1, u, s)} :: (u != request.userId || s != request.sessionId) ==>
              HistoryOf(r.1, u, s) == HistoryOf(table, u, s)
    ensures !r.0.Ok? ==> r.1 == table
  {
    match Guide(agent, HistoryOf(table, request.userId, request.sessionId), request.prompt, fuel)
    case Finished(responseContent) =>
      (Ok(GuideResponse(responseContent, request.sessionId)),
       WithTurn(table, request.userId, request.sessionId, Human(request.prompt), AI(responseContent, [])))
    case Failed => (Err(InternalError), table)
    case OutOfFuel => (Unfinished, table)
  }

  /** `generate_guide_endpoint` on the shared store. */
  method GenerateGuideEndpoint(store: HistoryStore, agent: GuideAgent, request: GuideRequest, fuel: nat)
    returns (r: Reply)
    modifies store
    ensures (r, store.conversationHistory) == Handle(old(store.conversationHistory), agent, request, fuel)
    ensures r.Ok? ==> r.body.sessionId == request.sessionId
    ensures !r.Ok? ==> unchanged(store)
  {
    var responseContent := GenerateGuide(store, agent, request.userId, request.prompt, request.sessionId, fuel);
    match responseContent
    case Finished(answer) =>
      store.UpdateHistory(request.userId, request.sessionId, Human(request.prompt), AI(answer, []));
      r := Ok(GuideResponse(answer, request.sessionId));
    case Failed =>
      r := Err(InternalError);
    case OutOfFuel =>
      r := Unfinished;
  }

  /** A stored history made of whole turns: human messages at even
      positions, tool-call-free AI messages at odd ones, and no tool
      messages anywhere. */
  predicate Alternating(history: seq<Message>)
  {
    && |history| % 2 == 0
    && forall i :: 0 <= i < |history| ==>
         if i % 2 == 0 then history[i].Human? else history[i].AI? && history[i].toolCalls == []
  }

  ghost predicate StoreAlternating(table: Table)
  {
    forall u, s :: Alternating(HistoryOf(table, u, s))
  }

  lemma AlternatingExtend(history: seq<Message>, prompt: string, answer: string)
    requires Alternating(history)
    ensures Alternating(history + [Human(prompt), AI(answer, [])])
  {
  }

  /** Every request keeps every stored history a sequence of whole turns; in
      particular tool messages are never persisted. */
  lemma HandleKeepsAlternating(table: Table, agent: GuideAgent, request: GuideRequest, fuel: nat)
    requires StoreAlternating(table)
    ensures StoreAlternating(Handle(table, agent, request, fuel).1)
  {
    var (reply, next) := Handle(table, agent, request, fuel);
    forall u, s ensures Alternating(HistoryOf(next, u, s)) {
      if reply.Ok? && u == request.userId && s == request.sessionId {
        AlternatingExtend(HistoryOf(table, u, s), request.prompt, reply.body.response);
      }
    }
  }

  /** Requests served one after another against the store. */
  function HandleAll(table: Table, agent: GuideAgent, requests: seq<GuideRequest>, fuel: nat): (r: (seq<Reply>, Table))
    ensures |r.0| == |requests|
    decreases |requests|
  {
    if requests == [] then ([], table)
    else
      var step := Handle(table, agent, requests[0], fuel);
      var rest := HandleAll(step.1, agent, requests[1..], fuel);
      ([step.0] + rest.0, rest.1)
  }

  /** The turns a sequence of requests records for one session: one
      (prompt, answer) pair per successful request to that session, in
      request order. */
  function SessionTurns(requests: seq<GuideRequest>, replies: seq<Reply>, userId: string, sessionId: string)
    : seq<(Message, Message)>
    requires |requests| == |replies|
    decreases |requests|
  {
    if requests == [] then []
    else
      TurnOf(requests[0], replies[0], userId, sessionId) + SessionTurns(requests[1..], replies[1..], userId, sessionId)
  }

  /** The turn one request records for a session, if any. */
  function TurnOf(request: GuideRequest, reply: Reply, userId: string, sessionId: string): seq<(Message, Message)>
  {
    if request.userId == userId && request.sessionId == sessionId && reply.Ok?
    then [(Human(request.prompt), AI(reply.body.response, []))]
    else []
  }

  lemma HandleStep(table: Table, agent: GuideAgent, request: GuideRequest, fuel: nat, userId: string, sessionId: string)
    ensures var r := Handle(table, agent, request, fuel);
            HistoryOf(r.1, userId, sessionId) ==
              HistoryOf(table, userId, sessionId) + Interleave(TurnOf(request, r.0, userId, sessionId))
  {
  }

  lemma ConcatAssociative<T>(a: seq<T>, b: seq<T>, c: seq<T>)
    ensures a + b + c == a + (b + c)
  {
  }

  /** After any sequence of requests, a session's history is its old history
      followed by exactly the turns of the successful requests to that
      session; requests to other sessions leave no trace in it. */
  lemma {:induction false} HandleAllHistory(table: Table, agent: GuideAgent, requests: seq<GuideRequest>, fuel: nat,
                                            userId: string, sessionId: string)
    ensures var r := HandleAll(table, agent, requests, fuel);
            HistoryOf(r.1, userId, sessionId) ==
              HistoryOf(table, userId, sessionId) + Interleave(SessionTurns(requests, r.0, userId, sessionId))
    decreases |requests|
  {
    if requests != [] {
      var step := Handle(table, agent, requests[0], fuel);
      var tail := HandleAll(step.1, agent, requests[1..], fuel);
      var first := TurnOf(requests[0], step.0, userId, sessionId);
      var rest := SessionTurns(requests[1..], tail.0, userId, sessionId);
      assert ([step.0] + tail.0)[1..] == tail.0;
      assert SessionTurns(requests, [step.0] + tail.0, userId, sessionId) == first + rest;
      calc {
        HistoryOf(tail.1, userId, sessionId);
      == { HandleAllHistory(step.1, agent, requests[1..], fuel, userId, sessionId); }
        HistoryOf(step.1, userId, sessionId) + Interleave(rest);
      == { HandleStep(table, agent, requests[0], fuel, userId, sessionId); }
        HistoryOf(table, userId, sessionId) + Interleave(first) + Interleave(rest);
      == { ConcatAssociative(HistoryOf(table, userId, sessionId), Interleave(first), Interleave(rest));
           InterleaveAppend(first, rest); }
        HistoryOf(table, userId, sessionId) + Interleave(first + rest);
      }
    }
  }

  /** When every request is to the same session, the turns recorded are all
      of them, in order. */
  lemma {:induction false} SessionTurnsAll(requests: seq<GuideRequest>, replies: seq<Reply>, userId: string, sessionId: string)
    requires |requests| == |replies|
    requires forall i :: 0 <= i < |requests| ==> requests[i].userId == userId && requests[i].sessionId == sessionId
    requires forall i :: 0 <= i < |replies| ==> replies[i].Ok?
    ensures var turns := SessionTurns(requests, replies, userId, sessionId);
            |turns| == |requests| &&
            forall i :: 0 <= i < |requests| ==>
              turns[i] == (Human(requests[i].prompt), AI(replies[i].body.response, []))
    decreases |requests|
  {
    if requests != [] {
      SessionTurnsAll(requests[1..], replies[1..], userId, sessionId);
      var rest := SessionTurns(requests[1..], replies[1..], userId, sessionId);
      forall i | 1 <= i < |requests|
        ensures SessionTurns(requests, replies, userId, sessionId)[i] ==
                  (Human(requests[i].prompt), AI(replies[i].body.response, []))
      {
        assert rest[i - 1] == (Human(requests[1..][i - 1].prompt), AI(replies[1..][i - 1].body.response, []));
      }
    }
  }

  /** N successful requests to one session add 2N messages to its history:
      request i's prompt at offset 2i and its answer at offset 2i + 1. */
  lemma SessionTranscript(table: Table, agent: GuideAgent, requests: seq<GuideRequest>, fuel: nat,
                          userId: string, sessionId: string)
    requires forall i :: 0 <= i < |requests| ==> requests[i].userId == userId && requests[i].sessionId == sessionId
    requires forall i :: 0 <= i < |requests| ==> HandleAll(table, agent, requests, fuel).0[i].Ok?
    ensures var (replies, final) := HandleAll(table, agent, requests, fuel);
            var before, after := HistoryOf(table, userId, sessionId), HistoryOf(final, userId, sessionId);
            && |after| == |before| + 2 * |requests|
            && after[..|before|] == before
            && forall i :: 0 <= i < |requests| ==>
                 after[|before| + 2 * i] == Human(requests[i].prompt) &&
                 after[|before| + 2 * i + 1] == AI(replies[i].body.response, [])
  {
    var (replies, final) := HandleAll(table, agent, requests, fuel);
    HandleAllHistory(table, agent, requests, fuel, userId, sessionId);
    SessionTurnsAll(requests, replies, userId, sessionId);
    var turns := SessionTurns(requests, replies, userId, sessionId);
    InterleaveShape(turns);
  }

  /** A request whose model makes one tool round: the caller gets the second
      reply, and the store gains only the prompt and that reply; the tool
      call and its result are not persisted. */
  lemma ToolRoundNotPersisted(table: Table, agent: GuideAgent, request: GuideRequest, fuel: nat,
                              first: string, call: ToolCall, output: string, second: string)
    requires fuel >= 3
    requires var c := Conversation(HistoryOf(table, request.userId, request.sessionId), request.prompt);
             && agent.modelWithTools(c) == Returned(ModelReply(first, [call]))
             && agent.runTool(call) == Returned(output)
             && agent.modelWithTools(c + [AI(first, [call]), Tool(output, call.id)]) == Returned(ModelReply(second, []))
    ensures Handle(table, agent, request, fuel).0 == Ok(GuideResponse(second, request.sessionId))
    ensures HistoryOf(Handle(table, agent, request, fuel).1, request.userId, request.sessionId) ==
              HistoryOf(table, request.userId, request.sessionId) + [Human(request.prompt), AI(second, [])]
  {
    var c := Conversation(HistoryOf(table, request.userId, request.sessionId), request.prompt);
    OneToolRound(agent, c, fuel, first, call, output, second);
  }
}
