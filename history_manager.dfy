/** The process-wide conversation store: user id -> session id -> messages. */
module HistoryManager {
  import opened Messages

  type Table = map<string, map<string, seq<Message>>>

  /** The sessions of one user, with an absent user read as no sessions. */
  function SessionsOf(table: Table, userId: string): map<string, seq<Message>>
  {
    if userId in table then table[userId] else map[]
  }

  /** True when (userId, sessionId) has an entry in the table. */
  predicate Written(table: Table, userId: string, sessionId: string)
  {
    userId in table && sessionId in table[userId]
  }

  /** The stored history of one session, with an absent user or session read
      as the empty history. */
  function HistoryOf(table: Table, userId: string, sessionId: string): seq<Message>
  {
    var sessions := SessionsOf(table, userId);
    if sessionId in sessions then sessions[sessionId] else []
  }

  /** The table after one turn (human, ai) has been recorded for
      (userId, sessionId): the specification of `UpdateHistory`. */
  function WithTurn(table: Table, userId: string, sessionId: string, human: Message, ai: Message): (t: Table)
    ensures HistoryOf(t, userId, sessionId) == HistoryOf(table, userId, sessionId) + [human, ai]
    ensures forall u, s {:trigger HistoryOf(t, u, s)} :: (u != userId || s != sessionId) ==>
              HistoryOf(t, u, s) == HistoryOf(table, u, s)
    ensures t.Keys == table.Keys + {userId}
    ensures t[userId].Keys == SessionsOf(table, userId).Keys + {sessionId}
    ensures forall u :: u in table && u != userId ==> u in t && t[u] == table[u]
    ensures forall s :: s in SessionsOf(table, userId) && s != sessionId ==> t[userId][s] == table[userId][s]
  {
    var sessions := SessionsOf(table, userId);
    table[userId := sessions[sessionId := HistoryOf(table, userId, sessionId) + [human, ai]]]
  }

  class HistoryStore {
    var conversationHistory: Table

    constructor ()
      ensures conversationHistory == map[]
    {
      conversationHistory := map[];
    }

    /** Reads one session's history; an unwritten user or session gives the
        empty history and nothing is inserted. */
    method GetHistory(userId: string, sessionId: string) returns (history: seq<Message>)
      ensures Written(conversationHistory, userId, sessionId) ==>
                history == conversationHistory[userId][sessionId]
      ensures !Written(conversationHistory, userId, sessionId) ==> history == []
      ensures history == HistoryOf(conversationHistory, userId, sessionId)
    {
      var sessions := if userId in conversationHistory then conversationHistory[userId] else map[];
      history := if sessionId in sessions then sessions[sessionId] else [];
    }

    /** Creates the user's and the session's entries when absent, then
        appends `human` and `ai`, in that order. */
    method UpdateHistory(userId: string, sessionId: string, human: Message, ai: Message)
      modifies this
      ensures conversationHistory == WithTurn(old(conversationHistory), userId, sessionId, human, ai)
      ensures HistoryOf(conversationHistory, userId, sessionId) ==
                old(HistoryOf(conversationHistory, userId, sessionId)) + [human, ai]
    {
      if userId !in conversationHistory {
        conversationHistory := conversationHistory[userId := map[]];
      }
      if sessionId !in conversationHistory[userId] {
        conversationHistory := conversationHistory[userId := conversationHistory[userId][sessionId := []]];
      }
      ghost var before := old(conversationHistory);
      ghost var sessionsBefore, h := SessionsOf(before, userId), HistoryOf(before, userId, sessionId);
      assert conversationHistory == before[userId := sessionsBefore[sessionId := h]] by {
        assert conversationHistory.Keys == before.Keys + {userId};
        assert conversationHistory[userId] == sessionsBefore[sessionId := h];
      }
      var sessions := conversationHistory[userId];
      conversationHistory := conversationHistory[userId := sessions[sessionId := sessions[sessionId] + [human]]];
      UpdateTwice(sessionsBefore, sessionId, h, h + [human]);
      UpdateTwice(before, userId, sessionsBefore[sessionId := h], sessionsBefore[sessionId := h + [human]]);
      sessions := conversationHistory[userId];
      conversationHistory := conversationHistory[userId := sessions[sessionId := sessions[sessionId] + [ai]]];
      UpdateTwice(sessionsBefore, sessionId, h + [human], h + [human] + [ai]);
      UpdateTwice(before, userId, sessionsBefore[sessionId := h + [human]], sessionsBefore[sessionId := h + [human] + [ai]]);
      assert h + [human] + [ai] == h + [human, ai];
    }
  }

  /** A second update of the same key overrides the first. */
  lemma UpdateTwice<K, V>(m: map<K, V>, k: K, first: V, second: V)
    ensures m[k := first][k := second] == m[k := second]
  {
  }

  /** The turns of a session laid out in order: each turn's human message
      followed by its AI message. */
  function Interleave(turns: seq<(Message, Message)>): seq<Message>
  {
    if turns == [] then [] else [turns[0].0, turns[0].1] + Interleave(turns[1..])
  }

  lemma {:induction false} InterleaveShape(turns: seq<(Message, Message)>)
    ensures |Interleave(turns)| == 2 * |turns|
    ensures forall i :: 0 <= i < |turns| ==>
              Interleave(turns)[2 * i] == turns[i].0 && Interleave(turns)[2 * i + 1] == turns[i].1
  {
    if turns != [] {
      InterleaveShape(turns[1..]);
      forall i | 1 <= i < |turns|
        ensures Interleave(turns)[2 * i] == turns[i].0 && Interleave(turns)[2 * i + 1] == turns[i].1
      {
        assert turns[1..][i - 1] == turns[i];
      }
    }
  }

  lemma {:induction false} InterleaveAppend(turns: seq<(Message, Message)>, more: seq<(Message, Message)>)
    ensures Interleave(turns + more) == Interleave(turns) + Interleave(more)
  {
    if turns != [] {
      assert (turns + more)[1..] == turns[1..] + more;
      InterleaveAppend(turns[1..], more);
    } else {
      assert turns + more == more;
    }
  }

  /** The table after `UpdateHistory` has been called once per turn, in order,
      on the same (userId, sessionId). */
  function AppendTurns(table: Table, userId: string, sessionId: string, turns: seq<(Message, Message)>): Table
    decreases |turns|
  {
    if turns == [] then table
    else AppendTurns(WithTurn(table, userId, sessionId, turns[0].0, turns[0].1), userId, sessionId, turns[1..])
  }

  lemma {:induction false} AppendTurnsHistory(table: Table, userId: string, sessionId: string, turns: seq<(Message, Message)>)
    ensures HistoryOf(AppendTurns(table, userId, sessionId, turns), userId, sessionId) ==
              HistoryOf(table, userId, sessionId) + Interleave(turns)
    ensures forall u, s :: (u != userId || s != sessionId) ==>
              HistoryOf(AppendTurns(table, userId, sessionId, turns), u, s) == HistoryOf(table, u, s)
    decreases |turns|
  {
    if turns != [] {
      var next := WithTurn(table, userId, sessionId, turns[0].0, turns[0].1);
      AppendTurnsHistory(next, userId, sessionId, turns[1..]);
    }
  }

  /** n calls on a session never written before leave a history of 2n
      messages: turn i's human message at 2i and its AI message at 2i + 1. */
  lemma FreshSessionTranscript(table: Table, userId: string, sessionId: string, turns: seq<(Message, Message)>)
    requires !Written(table, userId, sessionId)
    ensures var h := HistoryOf(AppendTurns(table, userId, sessionId, turns), userId, sessionId);
            |h| == 2 * |turns| &&
            forall i :: 0 <= i < |turns| ==> h[2 * i] == turns[i].0 && h[2 * i + 1] == turns[i].1
  {
    AppendTurnsHistory(table, userId, sessionId, turns);
    InterleaveShape(turns);
  }
}
