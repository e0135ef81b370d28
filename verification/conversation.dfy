/** The conversation screen's handlers, run one after the other on the shared
    store. Each is proved to leave the store, the status writes, the calls and
    the alert exactly as the Turn functions say. */
module ConversationScreen {
  import opened Types
  import opened Dialogue
  import opened Effects
  import opened ConversationStore
  import opened Turn

  method StartRecording(store: Store, prepare: Outcome) returns (alert: bool)
    modifies store
    ensures store.Snapshot() == StartTurn(old(store.Snapshot()), prepare).session
    ensures store.statusLog == old(store.statusLog) + StartTurn(old(store.Snapshot()), prepare).statuses
    ensures alert == StartTurn(old(store.Snapshot()), prepare).alert
  {
    if prepare.Pass? {
      store.SetStatus(Recording);
      alert := false;
    } else {
      alert := true;
    }
  }

  /** The loop over the reply's mistakes: save each, append it to the store,
      and stop at the first save that throws. */
  method SaveReplyMistakes(store: Store, conv: string, messageId: string, drafts: seq<MistakeDraft>,
                           save: nat -> Result<Stamp>) returns (calls: seq<Call>, failed: bool)
    modifies store
    ensures store.Snapshot()
            == old(store.Snapshot()).(mistakes := old(store.mistakes) + SaveMistakes(conv, messageId, drafts, save).mistakes)
    ensures calls == SaveMistakes(conv, messageId, drafts, save).calls
    ensures failed == SaveMistakes(conv, messageId, drafts, save).failed
    ensures store.statusLog == old(store.statusLog)
  {
    calls := [];
    var i := 0;
    while i < |drafts|
      invariant 0 <= i <= |drafts|
      invariant var saved := SaveMistakes(conv, messageId, drafts[..i], save);
        && !saved.failed
        && store.Snapshot() == old(store.Snapshot()).(mistakes := old(store.mistakes) + saved.mistakes)
        && calls == saved.calls
      invariant store.statusLog == old(store.statusLog)
    {
      assert drafts[..i + 1][..i] == drafts[..i];
      calls := calls + [SaveMistake(conv, Some(messageId), drafts[i])];
      var outcome := save(i);
      if outcome.Failure? {
        SaveMistakesStops(conv, messageId, drafts, save, i + 1);
        return calls, true;
      }
      store.AddMistake(SavedMistake(conv, messageId, drafts[i], outcome.value));
      i := i + 1;
    }
    assert drafts[..i] == drafts;
    failed := false;
  }

  method StopRecording(store: Store, env: TurnEnv) returns (calls: seq<Call>, alert: bool)
    modifies store
    ensures var r := StopTurn(old(store.Snapshot()), env);
      store.Snapshot() == r.session && store.statusLog == old(store.statusLog) + r.statuses
      && calls == r.calls && alert == r.alert
  {
    var conversationId := store.conversationId;
    var history := store.messages;
    store.SetStatus(Processing);
    calls := [];
    if env.capture.Failure? {
      store.SetStatus(Idle);
      return calls, true;
    }
    var uri := env.capture.value;
    if !Truthy(uri) || !Truthy(conversationId) {
      store.SetStatus(Idle);
      return calls, false;
    }
    var conv := conversationId.value;

    calls := calls + [Transcribe(uri.value)];
    if env.transcription.Failure? {
      store.SetStatus(Idle);
      return calls, true;
    }
    var transcript := env.transcription.value;

    calls := calls + [SaveMessage(conv, User, transcript)];
    if env.userSave.Failure? {
      store.SetStatus(Idle);
      return calls, true;
    }
    var userStamp := env.userSave.value;
    store.AddMessage(SavedMessage(conv, User, transcript, userStamp));

    calls := calls + [Complete(BuildRequest(transcript, history, env.parse))];
    var reply := InterpretReply(env.chat, env.parse);
    if reply.Failure? {
      store.SetStatus(Idle);
      return calls, true;
    }
    var ai := reply.value;

    var rest, restAlert := FinishTurn(store, conv, userStamp.id, ai, env, calls);
    calls, alert := rest, restAlert;
  }

  /** Saving the reply, its mistakes, and speaking it. */
  method FinishTurn(store: Store, conv: string, userMessageId: string, ai: AIResponse, env: TurnEnv,
                    callsBefore: seq<Call>) returns (calls: seq<Call>, alert: bool)
    modifies store
    ensures var r := ReplyTurn(old(store.Snapshot()), conv, userMessageId, ai, env, callsBefore);
      store.Snapshot() == r.session && store.statusLog == old(store.statusLog) + r.statuses
      && calls == r.calls && alert == r.alert
  {
    calls := callsBefore + [SaveMessage(conv, Assistant, ai.reply)];
    if env.assistantSave.Failure? {
      store.SetStatus(Idle);
      return calls, true;
    }
    store.AddMessage(SavedMessage(conv, Assistant, ai.reply, env.assistantSave.value));

    var mistakeCalls, failed := SaveReplyMistakes(store, conv, userMessageId, ai.mistakes, env.mistakeSave);
    calls := calls + mistakeCalls;
    if failed {
      store.SetStatus(Idle);
      return calls, true;
    }

    store.SetStatus(Playing);
    calls := calls + [Speak(ai.reply)];
    store.SetStatus(Idle);
    alert := env.speech.Fail?;
  }

  method HandleRecordPress(store: Store, prepare: Outcome, env: TurnEnv) returns (calls: seq<Call>, alert: bool)
    modifies store
    ensures store.Snapshot() == Press(old(store.Snapshot()), prepare, env).session
    ensures store.statusLog == old(store.statusLog) + Press(old(store.Snapshot()), prepare, env).statuses
    ensures calls == Press(old(store.Snapshot()), prepare, env).calls
    ensures alert == Press(old(store.Snapshot()), prepare, env).alert
  {
    if store.status == Recording {
      calls, alert := StopRecording(store, env);
    } else if store.status == Idle {
      alert := StartRecording(store, prepare);
      calls := [];
    } else {
      calls, alert := [], false;
    }
  }

  /** Ending the conversation marks it ended when there is one, then leaves the
      screen; a failing backend call leaves the screen where it is. The store
      is not touched. */
  method HandleEndConversation(store: Store, ending: Outcome) returns (calls: seq<Call>, navigated: bool)
    ensures Truthy(store.conversationId) ==>
              calls == [EndConversation(store.conversationId.value)] && navigated == ending.Pass?
    ensures !Truthy(store.conversationId) ==> calls == [] && navigated
  {
    if Truthy(store.conversationId) {
      calls := [EndConversation(store.conversationId.value)];
      navigated := ending.Pass?;
    } else {
      calls := [];
      navigated := true;
    }
  }
}
