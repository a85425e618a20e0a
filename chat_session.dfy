/** What one run of `handleSendMessage` does to the current record, and what
    a sequence of such turns does to its chat history. The chat service's
    answer, the persist call's fate and the clock readings are given. */
module ChatSession {
  import opened Shared
  import opened Records

  /** The chat service's answer: `{ response, error }` with a response, with
      an error, or a thrown exception. A missing response is `Answer([])`. */
  datatype SendOutcome = Answer(response: string) | ApiError(message: string) | SendThrew(error: Raised)

  /** `updateChatHistory`: its returned value is ignored, so it either
      settles or throws. */
  datatype PersistOutcome = Settled | PersistThrew(error: Raised)

  const SendFallback: string := "Failed to send message"

  /** A chat turn needs a current record that already has its analysis. */
  predicate Chattable(current: Option<VideoAnalysis>) {
    current.Some? && current.value.analysisData.Some?
  }

  /** The answer counts only with a non-empty response (`!response`). */
  predicate Answered(reply: SendOutcome) {
    reply.Answer? && reply.response != []
  }

  /** The effect of one turn: the new current record, the remote calls
      issued in order, and the notifications shown. */
  datatype TurnRun = TurnRun(current: Option<VideoAnalysis>, calls: seq<Call>, toasts: seq<Toast>)

  function Turn(current: Option<VideoAnalysis>, message: string, sentAt: string, repliedAt: string,
                reply: SendOutcome, persist: PersistOutcome): (r: TurnRun)
    // without a record that has its analysis, nothing happens
    ensures !Chattable(current) ==> r == TurnRun(current, [], [])
    // otherwise only the history changes, and the old history is kept as a prefix
    ensures Chattable(current) ==>
      var before := current.value.chatHistory;
      var user := ChatMessage(User, message, sentAt);
      && Chattable(r.current)
      && r.current.value == current.value.(chatHistory := r.current.value.chatHistory)
      && IsPrefix(before + [user], r.current.value.chatHistory)
      && |r.current.value.chatHistory| <= |before| + 2
      && 1 <= |r.calls| <= 2
      && r.calls[0] == SendChat(current.value.id, message, current.value.analysisData.value, before + [user])
    // a complete turn appends the user entry and then the reply, and persists exactly that
    ensures Chattable(current) && Answered(reply) && persist.Settled? ==>
      var h := current.value.chatHistory + [ChatMessage(User, message, sentAt), ChatMessage(Assistant, reply.response, repliedAt)];
      r.current.value.chatHistory == h && r.calls[1..] == [PersistHistory(current.value.id, h)] && r.toasts == []
    // a failed exchange keeps the optimistic user entry, persists nothing and notifies once
    ensures Chattable(current) && !Answered(reply) ==>
      r.current.value.chatHistory == current.value.chatHistory + [ChatMessage(User, message, sentAt)]
      && |r.calls| == 1 && |r.toasts| == 1 && r.toasts[0].destructive
    ensures Chattable(current) && reply.ApiError? ==> r.toasts == [Toast("Error", OrElse(reply.message, SendFallback), true)]
    ensures Chattable(current) && reply == Answer([]) ==> r.toasts == [Toast("Error", SendFallback, true)]
    ensures Chattable(current) && reply.SendThrew? ==> r.toasts == [Toast("Error", CaughtText(reply.error), true)]
    // a reply that cannot be persisted is dropped: the user entry stays, the attempted history is logged, and one error shows
    ensures Chattable(current) && Answered(reply) && persist.PersistThrew? ==>
      var before := current.value.chatHistory;
      var user := ChatMessage(User, message, sentAt);
      && r.current.value.chatHistory == before + [user]
      && r.calls[1..] == [PersistHistory(current.value.id, before + [user, ChatMessage(Assistant, reply.response, repliedAt)])]
      && r.toasts == [Toast("Error", CaughtText(persist.error), true)]
  {
    if !Chattable(current) then TurnRun(current, [], [])
    else
      var record := current.value;
      var updated := record.chatHistory + [ChatMessage(User, message, sentAt)];
      var send := SendChat(record.id, message, record.analysisData.value, updated);
      var pending := Some(record.(chatHistory := updated));
      match reply
      case ApiError(m) => TurnRun(pending, [send], [Toast("Error", OrElse(m, SendFallback), true)])
      case SendThrew(e) => TurnRun(pending, [send], [Toast("Error", CaughtText(e), true)])
      case Answer(response) =>
        if response == [] then TurnRun(pending, [send], [Toast("Error", SendFallback, true)])
        else
          var final := updated + [ChatMessage(Assistant, response, repliedAt)];
          var store := PersistHistory(record.id, final);
          match persist
          case Settled => TurnRun(Some(record.(chatHistory := final)), [send, store], [])
          case PersistThrew(e) =>
            assert final == record.chatHistory + [ChatMessage(User, message, sentAt), ChatMessage(Assistant, response, repliedAt)];
            TurnRun(pending, [send, store], [Toast("Error", CaughtText(e), true)])
  }

  /** The inputs of one turn. */
  datatype TurnInput = TurnInput(message: string, sentAt: string, repliedAt: string, reply: SendOutcome, persist: PersistOutcome)

  /** The current record after the turns, one after the other. */
  function Session(current: Option<VideoAnalysis>, turns: seq<TurnInput>): Option<VideoAnalysis>
    decreases |turns|
  {
    if turns == [] then current
    else
      var t := turns[0];
      Session(Turn(current, t.message, t.sentAt, t.repliedAt, t.reply, t.persist).current, turns[1..])
  }

  /** The number of turns that end with both entries appended. */
  function Completed(turns: seq<TurnInput>): (n: nat)
    ensures n <= |turns|
  {
    if turns == [] then 0
    else (if Answered(turns[0].reply) && turns[0].persist.Settled? then 1 else 0) + Completed(turns[1..])
  }

  /** Over any sequence of turns the history is append-only: the old history
      stays a prefix, every turn adds its user entry, and exactly the
      completed turns add a reply. The record otherwise stays the same. */
  lemma {:induction false} SessionAppendOnly(current: Option<VideoAnalysis>, turns: seq<TurnInput>)
    requires Chattable(current)
    ensures var after := Session(current, turns);
      && Chattable(after)
      && after.value == current.value.(chatHistory := after.value.chatHistory)
      && IsPrefix(current.value.chatHistory, after.value.chatHistory)
      && |after.value.chatHistory| == |current.value.chatHistory| + |turns| + Completed(turns)
    decreases |turns|
  {
    if turns != [] {
      var t := turns[0];
      var next := Turn(current, t.message, t.sentAt, t.repliedAt, t.reply, t.persist).current;
      SessionAppendOnly(next, turns[1..]);
      var h0, h1 := current.value.chatHistory, next.value.chatHistory;
      var h2 := Session(current, turns).value.chatHistory;
      assert IsPrefix(h0, h1) by {
        assert h1[..|h0|] == (h1[..|h0| + 1])[..|h0|];
      }
      assert h2[..|h0|] == (h2[..|h1|])[..|h0|];
    }
  }

  /** Without a record that has its analysis, turns change nothing. */
  lemma {:induction false} SessionIdleWithoutAnalysis(current: Option<VideoAnalysis>, turns: seq<TurnInput>)
    requires !Chattable(current)
    ensures Session(current, turns) == current
    decreases |turns|
  {
    if turns != [] {
      SessionIdleWithoutAnalysis(current, turns[1..]);
    }
  }
}
