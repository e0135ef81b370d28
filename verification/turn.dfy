/** The conversation turn as a function of the session and of what the
    collaborators answer: stopping a recording (transcribe, save the user
    message, get the reply, save the assistant message, save each mistake,
    speak), starting one, and the record button's dispatch on the status.
    The screen's handlers in ConversationScreen are proved against it. */
module Turn {
  import opened Types
  import opened Dialogue
  import opened Effects
  import opened ConversationStore

  /** What each collaborator does when the turn calls it. */
  datatype TurnEnv = TurnEnv(
    capture: Result<Option<string>>,   // stopping the recorder and switching the audio mode: throws, or gives `recorder.uri`
    transcription: Result<string>,     // transcribeAudio(uri)
    userSave: Result<Stamp>,           // saveMessage(conversationId, 'user', transcript)
    chat: Result<ChatReply>,           // the chat-completion HTTP exchange
    parse: Parser,                     // JSON.parse
    assistantSave: Result<Stamp>,      // saveMessage(conversationId, 'assistant', reply)
    mistakeSave: nat -> Result<Stamp>, // the i-th saveMistake of the turn
    speech: Outcome)                   // speakText(reply)

  /** The session after a handler, every status it wrote, the calls it made,
      and whether it showed the "something went wrong" alert. */
  datatype TurnResult = TurnResult(
    session: Session,
    statuses: seq<RecordingStatus>,
    calls: seq<Call>,
    alert: bool)

  /** The row the backend returns for an inserted message. */
  function SavedMessage(conversationId: string, role: Role, content: string, st: Stamp): Message {
    Message(st.id, conversationId, role, content, st.createdAt)
  }

  /** The row the backend returns for an inserted mistake. */
  function SavedMistake(conversationId: string, messageId: string, d: MistakeDraft, st: Stamp): Mistake {
    Mistake(st.id, conversationId, Some(messageId), d.original, d.correction, d.explanation, st.createdAt)
  }

  /** The mistakes saved so far, the saveMistake calls made, and whether one threw. */
  datatype Saved = Saved(mistakes: seq<Mistake>, calls: seq<Call>, failed: bool)

  /** Saving the reply's mistakes one after the other, stopping at the first that throws. */
  function SaveMistakes(conversationId: string, messageId: string, drafts: seq<MistakeDraft>,
                        save: nat -> Result<Stamp>): (r: Saved)
    ensures |r.calls| == |r.mistakes| + (if r.failed then 1 else 0)
    ensures |r.calls| <= |drafts|
    ensures !r.failed ==> |r.mistakes| == |drafts|
    decreases |drafts|
  {
    if drafts == [] then Saved([], [], false)
    else
      var n := |drafts| - 1;
      var prev := SaveMistakes(conversationId, messageId, drafts[..n], save);
      if prev.failed then prev
      else
        var call := SaveMistake(conversationId, Some(messageId), drafts[n]);
        match save(n)
        case Success(st) =>
          Saved(prev.mistakes + [SavedMistake(conversationId, messageId, drafts[n], st)], prev.calls + [call], false)
        case Failure(_) =>
          Saved(prev.mistakes, prev.calls + [call], true)
  }

  /** Mistake i is saved from draft i, linked to the user message; the save
      that threw, if any, is the first one that did. */
  lemma {:induction false} SaveMistakesInOrder(conversationId: string, messageId: string,
                                               drafts: seq<MistakeDraft>, save: nat -> Result<Stamp>)
    ensures var r := SaveMistakes(conversationId, messageId, drafts, save);
      && (forall i :: 0 <= i < |r.mistakes| ==>
            save(i).Success? && r.mistakes[i] == SavedMistake(conversationId, messageId, drafts[i], save(i).value))
      && (forall i :: 0 <= i < |r.calls| ==> r.calls[i] == SaveMistake(conversationId, Some(messageId), drafts[i]))
      && (r.failed ==> save(|r.mistakes|).Failure?)
      && ((forall i :: 0 <= i < |drafts| ==> save(i).Success?) ==> !r.failed)
    decreases |drafts|
  {
    if drafts != [] {
      var n := |drafts| - 1;
      SaveMistakesInOrder(conversationId, messageId, drafts[..n], save);
    }
  }

  /** Once a save has thrown, later drafts are never attempted. */
  lemma {:induction false} SaveMistakesStops(conversationId: string, messageId: string,
                                             drafts: seq<MistakeDraft>, save: nat -> Result<Stamp>, k: nat)
    requires k <= |drafts|
    requires SaveMistakes(conversationId, messageId, drafts[..k], save).failed
    ensures SaveMistakes(conversationId, messageId, drafts, save) == SaveMistakes(conversationId, messageId, drafts[..k], save)
    decreases |drafts|
  {
    if k < |drafts| {
      var n := |drafts| - 1;
      assert drafts[..n][..k] == drafts[..k];
      SaveMistakesStops(conversationId, messageId, drafts[..n], save, k);
    } else {
      assert drafts[..k] == drafts;
    }
  }

  /** The catch-all ending of a turn: status back to idle. */
  function Settle(s: Session, statuses: seq<RecordingStatus>, calls: seq<Call>, alert: bool): TurnResult {
    TurnResult(s.(status := Idle), statuses + [Idle], calls, alert)
  }

  /** Stopping the recording and running the rest of the turn. The history sent
      to the dialogue service and the conversation id are those read when the
      turn starts. */
  function StopTurn(s: Session, env: TurnEnv): TurnResult {
    var conversationId := s.conversationId;
    var history := s.messages;
    var processing := s.(status := Processing);
    match env.capture
    case Failure(_) => Settle(processing, [Processing], [], true)
    case Success(uri) =>
      if !Truthy(uri) || !Truthy(conversationId) then Settle(processing, [Processing], [], false)
      else
        var conv := conversationId.value;
        var calls1 := [Transcribe(uri.value)];
        match env.transcription
        case Failure(_) => Settle(processing, [Processing], calls1, true)
        case Success(transcript) =>
          var calls2 := calls1 + [SaveMessage(conv, User, transcript)];
          match env.userSave
          case Failure(_) => Settle(processing, [Processing], calls2, true)
          case Success(userStamp) =>
            var withUser := processing.(messages := processing.messages + [SavedMessage(conv, User, transcript, userStamp)]);
            var calls3 := calls2 + [Complete(BuildRequest(transcript, history, env.parse))];
            match InterpretReply(env.chat, env.parse)
            case Failure(_) => Settle(withUser, [Processing], calls3, true)
            case Success(ai) =>
              var rest := ReplyTurn(withUser, conv, userStamp.id, ai, env, calls3);
              rest.(statuses := [Processing] + rest.statuses)
  }

  /** The rest of a turn once the reply is known: save it, save its mistakes,
      speak it. The statuses are those written from here on. */
  function ReplyTurn(s: Session, conv: string, userMessageId: string, ai: AIResponse, env: TurnEnv,
                     calls: seq<Call>): TurnResult
  {
    var calls1 := calls + [SaveMessage(conv, Assistant, ai.reply)];
    match env.assistantSave
    case Failure(_) => Settle(s, [], calls1, true)
    case Success(replyStamp) =>
      var withReply := s.(messages := s.messages + [SavedMessage(conv, Assistant, ai.reply, replyStamp)]);
      var saved := SaveMistakes(conv, userMessageId, ai.mistakes, env.mistakeSave);
      var withMistakes := withReply.(mistakes := withReply.mistakes + saved.mistakes);
      var calls2 := calls1 + saved.calls;
      if saved.failed then Settle(withMistakes, [], calls2, true)
      else Settle(withMistakes.(status := Playing), [Playing], calls2 + [Speak(ai.reply)], env.speech.Fail?)
  }

  /** Every collaborator of a turn answers: a recording, a conversation, a
      transcript, both saves, a usable reply and every mistake saved. */
  predicate Completes(s: Session, env: TurnEnv) {
    && env.capture.Success? && Truthy(env.capture.value) && Truthy(s.conversationId)
    && env.transcription.Success? && env.userSave.Success?
    && InterpretReply(env.chat, env.parse).Success?
    && env.assistantSave.Success?
    && (forall i :: 0 <= i < |InterpretReply(env.chat, env.parse).value.mistakes| ==> env.mistakeSave(i).Success?)
  }

  /** The turn gets as far as a usable reply. */
  predicate ReachesReply(s: Session, env: TurnEnv) {
    && env.capture.Success? && Truthy(env.capture.value) && Truthy(s.conversationId)
    && env.transcription.Success? && env.userSave.Success?
    && InterpretReply(env.chat, env.parse).Success?
  }

  /** Once the reply is known, the rest of the turn is ReplyTurn on the session
      holding the user message, after the three calls made so far. */
  lemma StopTurnReachesReply(s: Session, env: TurnEnv)
    requires ReachesReply(s, env)
    ensures var conv := s.conversationId.value;
      var transcript := env.transcription.value;
      var withUser := s.(status := Processing, messages := s.messages + [SavedMessage(conv, User, transcript, env.userSave.value)]);
      var calls := [Transcribe(env.capture.value.value), SaveMessage(conv, User, transcript),
                    Complete(BuildRequest(transcript, s.messages, env.parse))];
      var rest := ReplyTurn(withUser, conv, env.userSave.value.id, InterpretReply(env.chat, env.parse).value, env, calls);
      StopTurn(s, env) == rest.(statuses := [Processing] + rest.statuses)
  {
  }

  /** Whatever happens, a turn ends idle, keeps the conversation and identity,
      and only appends: a user message, then an assistant message, then mistakes. */
  lemma StopTurnNoRollback(s: Session, env: TurnEnv)
    ensures var r := StopTurn(s, env);
      && r.session.status == Idle
      && r.session.conversationId == s.conversationId
      && r.session.userId == s.userId
      && r.session.isInitialized == s.isInitialized
      && s.messages <= r.session.messages
      && |r.session.messages| <= |s.messages| + 2
      && s.mistakes <= r.session.mistakes
      && (|r.session.mistakes| > |s.mistakes| ==> |r.session.messages| == |s.messages| + 2)
      && |r.statuses| >= 2 && r.statuses[0] == Processing && r.statuses[|r.statuses| - 1] == Idle
  {
    if ReachesReply(s, env) {
      var conv := s.conversationId.value;
      var ai := InterpretReply(env.chat, env.parse).value;
      var withUser := s.(status := Processing, messages := s.messages + [SavedMessage(conv, User, env.transcription.value, env.userSave.value)]);
      var calls := [Transcribe(env.capture.value.value), SaveMessage(conv, User, env.transcription.value),
                    Complete(BuildRequest(env.transcription.value, s.messages, env.parse))];
      StopTurnReachesReply(s, env);
      ReplyTurnAppends(withUser, conv, env.userSave.value.id, ai, env, calls);
    }
  }

  /** The messages a turn appends are the user's transcript, saved first, and
      the reply, saved second; the mistakes it appends are the reply's, in order,
      each linked to the user message. */
  lemma StopTurnAppendsInOrder(s: Session, env: TurnEnv)
    ensures var r := StopTurn(s, env);
      && (|r.session.messages| > |s.messages| ==>
            && Truthy(s.conversationId) && env.transcription.Success? && env.userSave.Success?
            && r.session.messages[|s.messages|]
               == SavedMessage(s.conversationId.value, User, env.transcription.value, env.userSave.value))
      && (|r.session.messages| == |s.messages| + 2 ==>
            && InterpretReply(env.chat, env.parse).Success? && env.assistantSave.Success?
            && r.session.messages[|s.messages| + 1]
               == SavedMessage(s.conversationId.value, Assistant, InterpretReply(env.chat, env.parse).value.reply,
                               env.assistantSave.value)
            && (forall j :: 0 <= j < |r.session.mistakes| - |s.mistakes| ==>
                  && env.mistakeSave(j).Success?
                  && r.session.mistakes[|s.mistakes| + j]
                     == SavedMistake(s.conversationId.value, env.userSave.value.id,
                                     InterpretReply(env.chat, env.parse).value.mistakes[j], env.mistakeSave(j).value)))
  {
    if ReachesReply(s, env) {
      var conv := s.conversationId.value;
      var userStamp := env.userSave.value;
      var ai := InterpretReply(env.chat, env.parse).value;
      var withUser := s.(status := Processing, messages := s.messages + [SavedMessage(conv, User, env.transcription.value, userStamp)]);
      var calls := [Transcribe(env.capture.value.value), SaveMessage(conv, User, env.transcription.value),
                    Complete(BuildRequest(env.transcription.value, s.messages, env.parse))];
      StopTurnReachesReply(s, env);
      ReplyTurnAppends(withUser, conv, userStamp.id, ai, env, calls);
      assert StopTurn(s, env).session == ReplyTurn(withUser, conv, userStamp.id, ai, env, calls).session;
    } else if env.capture.Success? && Truthy(env.capture.value) && Truthy(s.conversationId)
              && env.transcription.Success? && env.userSave.Success? {
      var user := SavedMessage(s.conversationId.value, User, env.transcription.value, env.userSave.value);
      assert StopTurn(s, env).session == s.(status := Idle, messages := s.messages + [user]);
    } else {
      assert StopTurn(s, env).session.messages == s.messages;
    }
  }

  /** The reply stage appends the reply and then the saved mistakes, or nothing
      when saving the reply throws. */
  lemma ReplyTurnAppends(s: Session, conv: string, userMessageId: string, ai: AIResponse, env: TurnEnv,
                         calls: seq<Call>)
    ensures var r := ReplyTurn(s, conv, userMessageId, ai, env, calls);
      && r.session.(messages := s.messages, mistakes := s.mistakes) == s.(status := Idle)
      && |r.statuses| >= 1 && r.statuses[|r.statuses| - 1] == Idle
      && (env.assistantSave.Failure? ==> r.session == s.(status := Idle))
      && (env.assistantSave.Success? ==>
            && r.session.messages == s.messages + [SavedMessage(conv, Assistant, ai.reply, env.assistantSave.value)]
            && r.session.mistakes == s.mistakes + SaveMistakes(conv, userMessageId, ai.mistakes, env.mistakeSave).mistakes
            && (forall j :: 0 <= j < |r.session.mistakes| - |s.mistakes| ==>
                  && env.mistakeSave(j).Success?
                  && r.session.mistakes[|s.mistakes| + j]
                     == SavedMistake(conv, userMessageId, ai.mistakes[j], env.mistakeSave(j).value)))
  {
    SaveMistakesInOrder(conv, userMessageId, ai.mistakes, env.mistakeSave);
  }

  /** The dialogue service is sent the message log as it was before this turn's
      user message, with the transcript last. */
  lemma StopTurnSendsPriorHistory(s: Session, env: TurnEnv)
    ensures var r := StopTurn(s, env);
      forall c | c in r.calls && c.Complete? ::
        env.transcription.Success? && c.request == BuildRequest(env.transcription.value, s.messages, env.parse)
  {
    var r := StopTurn(s, env);
    if env.capture.Success? && Truthy(env.capture.value) && Truthy(s.conversationId)
       && env.transcription.Success? && env.userSave.Success?
       && InterpretReply(env.chat, env.parse).Success? && env.assistantSave.Success?
    {
      var ai := InterpretReply(env.chat, env.parse).value;
      SaveMistakesInOrder(s.conversationId.value, env.userSave.value.id, ai.mistakes, env.mistakeSave);
    }
  }

  /** A complete turn adds exactly the user message and the reply, exactly one
      mistake per returned mistake in the returned order, writes the statuses
      processing, playing, idle, and calls the collaborators in strict order. */
  lemma {:induction false} StopTurnCompletes(s: Session, env: TurnEnv)
    requires Completes(s, env)
    ensures var r := StopTurn(s, env);
      var conv := s.conversationId.value;
      var transcript := env.transcription.value;
      var ai := InterpretReply(env.chat, env.parse).value;
      var userStamp := env.userSave.value;
      && r.session.messages == s.messages + [SavedMessage(conv, User, transcript, userStamp),
                                             SavedMessage(conv, Assistant, ai.reply, env.assistantSave.value)]
      && |r.session.mistakes| == |s.mistakes| + |ai.mistakes|
      && r.session.mistakes[..|s.mistakes|] == s.mistakes
      && (forall i :: 0 <= i < |ai.mistakes| ==>
            r.session.mistakes[|s.mistakes| + i] == SavedMistake(conv, userStamp.id, ai.mistakes[i], env.mistakeSave(i).value))
      && r.session.status == Idle
      && r.statuses == [Processing, Playing, Idle]
      && r.alert == env.speech.Fail?
      && |r.calls| == |ai.mistakes| + 5
      && r.calls[..4] == [Transcribe(env.capture.value.value), SaveMessage(conv, User, transcript),
                          Complete(BuildRequest(transcript, s.messages, env.parse)), SaveMessage(conv, Assistant, ai.reply)]
      && (forall i :: 0 <= i < |ai.mistakes| ==> r.calls[4 + i] == SaveMistake(conv, Some(userStamp.id), ai.mistakes[i]))
      && r.calls[|r.calls| - 1] == Speak(ai.reply)
  {
    var conv := s.conversationId.value;
    var transcript := env.transcription.value;
    var withUser := s.(status := Processing, messages := s.messages + [SavedMessage(conv, User, transcript, env.userSave.value)]);
    var calls := [Transcribe(env.capture.value.value), SaveMessage(conv, User, transcript),
                  Complete(BuildRequest(transcript, s.messages, env.parse))];
    StopTurnReachesReply(s, env);
    ReplyTurnCompletes(withUser, conv, env.userSave.value.id, InterpretReply(env.chat, env.parse).value, env, calls);
  }

  /** The reply stage of a complete turn: the reply, then every mistake in
      order, then playing and idle; its calls follow those made before it. */
  lemma ReplyTurnCompletes(s: Session, conv: string, userMessageId: string, ai: AIResponse, env: TurnEnv,
                           calls: seq<Call>)
    requires env.assistantSave.Success?
    requires forall i :: 0 <= i < |ai.mistakes| ==> env.mistakeSave(i).Success?
    ensures var r := ReplyTurn(s, conv, userMessageId, ai, env, calls);
      && r.session.messages == s.messages + [SavedMessage(conv, Assistant, ai.reply, env.assistantSave.value)]
      && |r.session.mistakes| == |s.mistakes| + |ai.mistakes|
      && r.session.mistakes[..|s.mistakes|] == s.mistakes
      && (forall i :: 0 <= i < |ai.mistakes| ==>
            r.session.mistakes[|s.mistakes| + i] == SavedMistake(conv, userMessageId, ai.mistakes[i], env.mistakeSave(i).value))
      && r.session.status == Idle
      && r.statuses == [Playing, Idle]
      && r.alert == env.speech.Fail?
      && |r.calls| == |calls| + |ai.mistakes| + 2
      && r.calls[..|calls| + 1] == calls + [SaveMessage(conv, Assistant, ai.reply)]
      && (forall i :: 0 <= i < |ai.mistakes| ==> r.calls[|calls| + 1 + i] == SaveMistake(conv, Some(userMessageId), ai.mistakes[i]))
      && r.calls[|r.calls| - 1] == Speak(ai.reply)
  {
    var saved := SaveMistakes(conv, userMessageId, ai.mistakes, env.mistakeSave);
    ReplyTurnAllSaved(s, conv, userMessageId, ai, env, calls);
    CallsLayout(calls, SaveMessage(conv, Assistant, ai.reply), saved.calls, Speak(ai.reply));
    MistakesLayout(s.mistakes, saved.mistakes);
  }

  /** The reply stage when every save succeeds, spelled out. */
  lemma ReplyTurnAllSaved(s: Session, conv: string, userMessageId: string, ai: AIResponse, env: TurnEnv,
                          calls: seq<Call>)
    requires env.assistantSave.Success?
    requires forall i :: 0 <= i < |ai.mistakes| ==> env.mistakeSave(i).Success?
    ensures var saved := SaveMistakes(conv, userMessageId, ai.mistakes, env.mistakeSave);
      && |saved.mistakes| == |ai.mistakes| && |saved.calls| == |ai.mistakes|
      && (forall i :: 0 <= i < |ai.mistakes| ==>
            saved.mistakes[i] == SavedMistake(conv, userMessageId, ai.mistakes[i], env.mistakeSave(i).value))
      && (forall i :: 0 <= i < |ai.mistakes| ==> saved.calls[i] == SaveMistake(conv, Some(userMessageId), ai.mistakes[i]))
      && ReplyTurn(s, conv, userMessageId, ai, env, calls)
         == TurnResult(s.(messages := s.messages + [SavedMessage(conv, Assistant, ai.reply, env.assistantSave.value)],
                          mistakes := s.mistakes + saved.mistakes, status := Idle),
                       [Playing, Idle],
                       calls + [SaveMessage(conv, Assistant, ai.reply)] + saved.calls + [Speak(ai.reply)],
                       env.speech.Fail?)
  {
    var saved := SaveMistakes(conv, userMessageId, ai.mistakes, env.mistakeSave);
    SaveMistakesInOrder(conv, userMessageId, ai.mistakes, env.mistakeSave);
    assert !saved.failed;
  }

  /** Where the saved mistakes lie in the mistake log after a reply stage. */
  lemma MistakesLayout(before: seq<Mistake>, saved: seq<Mistake>)
    ensures |before + saved| == |before| + |saved|
    ensures (before + saved)[..|before|] == before
    ensures forall i :: 0 <= i < |saved| ==> (before + saved)[|before| + i] == saved[i]
  {
  }

  /** Where each part lies in the calls of a reply stage. */
  lemma CallsLayout(before: seq<Call>, reply: Call, saves: seq<Call>, speak: Call)
    ensures var all := before + [reply] + saves + [speak];
      && |all| == |before| + |saves| + 2
      && all[..|before| + 1] == before + [reply]
      && (forall i :: 0 <= i < |saves| ==> all[|before| + 1 + i] == saves[i])
      && all[|all| - 1] == speak
  {
  }

  /** The alert shows exactly when some step of the turn throws: stopping the
      recorder, or, past the check for a recording and a conversation,
      transcribing, saving the user message, the dialogue exchange, saving the
      reply, saving a mistake, or speaking. The quiet stop is the only other
      way a turn ends without a full run. */
  lemma StopTurnAlertIff(s: Session, env: TurnEnv)
    ensures StopTurn(s, env).alert <==>
      || env.capture.Failure?
      || (&& Truthy(env.capture.value) && Truthy(s.conversationId)
          && (|| env.transcription.Failure?
              || env.userSave.Failure?
              || InterpretReply(env.chat, env.parse).Failure?
              || env.assistantSave.Failure?
              || SaveMistakes(s.conversationId.value, env.userSave.value.id,
                              InterpretReply(env.chat, env.parse).value.mistakes, env.mistakeSave).failed
              || env.speech.Fail?))
  {
    if ReachesReply(s, env) {
      StopTurnReachesReply(s, env);
    }
  }

  /** The turn gets past the check for a recording and a conversation. */
  predicate PastGuard(s: Session, env: TurnEnv) {
    env.capture.Success? && Truthy(env.capture.value) && Truthy(s.conversationId)
  }

  /** Once the user message is saved and added, it stays, whatever fails
      later; when the dialogue exchange is what fails, the turn ends with
      exactly that message added. */
  lemma StopTurnKeepsUserMessage(s: Session, env: TurnEnv)
    requires PastGuard(s, env) && env.transcription.Success? && env.userSave.Success?
    ensures var r := StopTurn(s, env);
      var user := SavedMessage(s.conversationId.value, User, env.transcription.value, env.userSave.value);
      && |r.session.messages| >= |s.messages| + 1
      && r.session.messages[..|s.messages| + 1] == s.messages + [user]
      && (InterpretReply(env.chat, env.parse).Failure? ==>
            r.session == s.(status := Idle, messages := s.messages + [user]))
  {
    var user := SavedMessage(s.conversationId.value, User, env.transcription.value, env.userSave.value);
    var withUser := s.(status := Processing, messages := s.messages + [user]);
    if ReachesReply(s, env) {
      var conv := s.conversationId.value;
      var calls := [Transcribe(env.capture.value.value), SaveMessage(conv, User, env.transcription.value),
                    Complete(BuildRequest(env.transcription.value, s.messages, env.parse))];
      var ai := InterpretReply(env.chat, env.parse).value;
      StopTurnReachesReply(s, env);
      ReplyTurnAppends(withUser, conv, env.userSave.value.id, ai, env, calls);
      var msgs := StopTurn(s, env).session.messages;
      assert msgs == ReplyTurn(withUser, conv, env.userSave.value.id, ai, env, calls).session.messages;
      assert withUser.messages <= msgs;
    } else {
      assert StopTurn(s, env).session == withUser.(status := Idle);
    }
  }

  /** The reply stage plays and speaks only when the reply and every mistake
      are saved; a failing save is its last call. */
  lemma ReplyTurnStops(s: Session, conv: string, userMessageId: string, ai: AIResponse, env: TurnEnv,
                       calls: seq<Call>)
    requires forall c :: c in calls ==> !c.Speak?
    ensures var r := ReplyTurn(s, conv, userMessageId, ai, env, calls);
      var saved := SaveMistakes(conv, userMessageId, ai.mistakes, env.mistakeSave);
      var allSaved := env.assistantSave.Success? && forall i :: 0 <= i < |ai.mistakes| ==> env.mistakeSave(i).Success?;
      && (Playing in r.statuses <==> allSaved)
      && ((exists c :: c in r.calls && c.Speak?) <==> allSaved)
      && (env.assistantSave.Failure? ==> r.calls == calls + [SaveMessage(conv, Assistant, ai.reply)])
      && (env.assistantSave.Success? && saved.failed ==>
            && |saved.mistakes| < |ai.mistakes|
            && |r.calls| == |calls| + |saved.mistakes| + 2
            && r.calls[|r.calls| - 1] == SaveMistake(conv, Some(userMessageId), ai.mistakes[|saved.mistakes|]))
  {
    var r := ReplyTurn(s, conv, userMessageId, ai, env, calls);
    var saved := SaveMistakes(conv, userMessageId, ai.mistakes, env.mistakeSave);
    SaveMistakesInOrder(conv, userMessageId, ai.mistakes, env.mistakeSave);
    var replyCall := SaveMessage(conv, Assistant, ai.reply);
    if env.assistantSave.Success? {
      var before := calls + [replyCall] + saved.calls;
      assert forall c :: c in before ==> !c.Speak? by {
        forall c | c in before ensures !c.Speak? {
          if c in saved.calls {
            var i :| 0 <= i < |saved.calls| && saved.calls[i] == c;
          }
        }
      }
      if saved.failed {
        assert r.statuses == [Idle] && r.calls == before;
        assert !env.mistakeSave(|saved.mistakes|).Success?;
        assert saved.calls[|saved.calls| - 1] == SaveMistake(conv, Some(userMessageId), ai.mistakes[|saved.mistakes|]);
      } else {
        assert r.statuses == [Playing, Idle] && r.calls == before + [Speak(ai.reply)];
        assert r.calls[|before|] == Speak(ai.reply);
        forall i | 0 <= i < |ai.mistakes| ensures env.mistakeSave(i).Success? {
          assert saved.mistakes[i] == SavedMistake(conv, userMessageId, ai.mistakes[i], env.mistakeSave(i).value);
        }
      }
    } else {
      assert r.statuses == [Idle] && r.calls == calls + [replyCall];
    }
  }

  /** `playing` is written, and the reply spoken, exactly when every step of
      the turn succeeds. */
  lemma StopTurnPlaysOnlyWhenComplete(s: Session, env: TurnEnv)
    ensures var r := StopTurn(s, env);
      && (Playing in r.statuses <==> Completes(s, env))
      && ((exists c :: c in r.calls && c.Speak?) <==> Completes(s, env))
  {
    if ReachesReply(s, env) {
      var conv := s.conversationId.value;
      var withUser := s.(status := Processing, messages := s.messages + [SavedMessage(conv, User, env.transcription.value, env.userSave.value)]);
      var calls := [Transcribe(env.capture.value.value), SaveMessage(conv, User, env.transcription.value),
                    Complete(BuildRequest(env.transcription.value, s.messages, env.parse))];
      var ai := InterpretReply(env.chat, env.parse).value;
      StopTurnReachesReply(s, env);
      ReplyTurnStops(withUser, conv, env.userSave.value.id, ai, env, calls);
      var rest := ReplyTurn(withUser, conv, env.userSave.value.id, ai, env, calls);
      assert StopTurn(s, env).statuses == [Processing] + rest.statuses;
      assert StopTurn(s, env).calls == rest.calls;
    } else {
      assert !Completes(s, env);
      assert StopTurn(s, env).statuses == [Processing, Idle];
      assert forall c :: c in StopTurn(s, env).calls ==> !c.Speak?;
    }
  }

  /** A step that throws is the turn's last collaborator call: nothing is
      retried and no later step runs. */
  lemma StopTurnStopsAtFailure(s: Session, env: TurnEnv)
    ensures var r := StopTurn(s, env);
      && (!PastGuard(s, env) ==> r.calls == [])
      && (PastGuard(s, env) ==>
            var conv := s.conversationId.value;
            && |r.calls| >= 1 && r.calls[0] == Transcribe(env.capture.value.value)
            && (env.transcription.Failure? ==> r.calls == [Transcribe(env.capture.value.value)])
            && (env.transcription.Success? ==>
                  var transcript := env.transcription.value;
                  && |r.calls| >= 2 && r.calls[1] == SaveMessage(conv, User, transcript)
                  && (env.userSave.Failure? ==> |r.calls| == 2)
                  && (env.userSave.Success? ==>
                        && |r.calls| >= 3 && r.calls[2] == Complete(BuildRequest(transcript, s.messages, env.parse))
                        && (InterpretReply(env.chat, env.parse).Failure? ==> |r.calls| == 3)
                        && (InterpretReply(env.chat, env.parse).Success? && env.assistantSave.Failure? ==>
                              r.calls == r.calls[..3] + [SaveMessage(conv, Assistant, InterpretReply(env.chat, env.parse).value.reply)]))))
  {
    if ReachesReply(s, env) {
      var conv := s.conversationId.value;
      var withUser := s.(status := Processing, messages := s.messages + [SavedMessage(conv, User, env.transcription.value, env.userSave.value)]);
      var calls := [Transcribe(env.capture.value.value), SaveMessage(conv, User, env.transcription.value),
                    Complete(BuildRequest(env.transcription.value, s.messages, env.parse))];
      var ai := InterpretReply(env.chat, env.parse).value;
      StopTurnReachesReply(s, env);
      ReplyTurnAppendsCalls(withUser, conv, env.userSave.value.id, ai, env, calls);
      if env.assistantSave.Failure? {
        ReplyTurnStops(withUser, conv, env.userSave.value.id, ai, env, calls);
      }
    }
  }

  /** The reply stage's calls follow those made before it. */
  lemma ReplyTurnAppendsCalls(s: Session, conv: string, userMessageId: string, ai: AIResponse, env: TurnEnv,
                              calls: seq<Call>)
    ensures calls <= ReplyTurn(s, conv, userMessageId, ai, env, calls).calls
  {
  }

  /** With no recording or no conversation the turn stops quietly: straight back
      to idle, nothing added, no collaborator called. */
  lemma StopTurnWithoutRecordingOrConversation(s: Session, env: TurnEnv)
    requires env.capture.Success? && (!Truthy(env.capture.value) || !Truthy(s.conversationId))
    ensures var r := StopTurn(s, env);
      && r.session == s.(status := Idle)
      && r.statuses == [Processing, Idle]
      && r.calls == []
      && !r.alert
  {
  }

  /** A turn whose collaborator throws shows the alert and ends idle. */
  lemma StopTurnFailureAlerts(s: Session, env: TurnEnv)
    requires env.capture.Success? && Truthy(env.capture.value) && Truthy(s.conversationId)
    requires env.transcription.Failure? || env.userSave.Failure?
    ensures var r := StopTurn(s, env);
      && r.alert
      && r.session == s.(status := Idle)
      && r.statuses == [Processing, Idle]
  {
  }

  /** A reply that is not JSON is saved and spoken as it is, with no mistakes. */
  lemma StopTurnUnparseableReply(s: Session, env: TurnEnv, content: string)
    requires env.capture.Success? && Truthy(env.capture.value) && Truthy(s.conversationId)
    requires env.transcription.Success? && env.userSave.Success? && env.assistantSave.Success?
    requires env.chat == Success(Ok(Some(content))) && content != "" && env.parse(content).None?
    ensures var r := StopTurn(s, env);
      && |r.session.messages| == |s.messages| + 2
      && r.session.messages[|s.messages| + 1].role == Assistant
      && r.session.messages[|s.messages| + 1].content == content
      && r.session.mistakes == s.mistakes
      && r.statuses == [Processing, Playing, Idle]
      && r.calls[|r.calls| - 1] == Speak(content)
  {
    UnparseableContentFallsBack(content, env.parse);
  }

  /** Starting a recording: status becomes recording only when capture starts. */
  function StartTurn(s: Session, prepare: Outcome): TurnResult {
    match prepare
    case Pass => TurnResult(s.(status := Recording), [Recording], [], false)
    case Fail(_) => TurnResult(s, [], [], true)
  }

  datatype PressAction = StopAction | StartAction | NoAction

  /** The record button's press: stop when recording, start when idle, nothing otherwise. */
  function Dispatch(status: RecordingStatus): (a: PressAction)
    ensures a == NoAction <==> status == Processing || status == Playing
    ensures a == StartAction <==> status == Idle
  {
    match status
    case Recording => StopAction
    case Idle => StartAction
    case Processing => NoAction
    case Playing => NoAction
  }

  function Press(s: Session, prepare: Outcome, env: TurnEnv): TurnResult {
    match Dispatch(s.status)
    case StopAction => StopTurn(s, env)
    case StartAction => StartTurn(s, prepare)
    case NoAction => TurnResult(s, [], [], false)
  }

  /** Between handlers the status is idle or recording. */
  predicate Settled(s: Session) {
    s.status == Idle || s.status == Recording
  }

  /** The answers to one press of the record button. */
  datatype PressInput = PressInput(prepare: Outcome, env: TurnEnv)

  function Presses(s: Session, inputs: seq<PressInput>): Session
    decreases |inputs|
  {
    if inputs == [] then s
    else Presses(Press(s, inputs[0].prepare, inputs[0].env).session, inputs[1..])
  }

  /** Over any sequence of presses, run one after the other, the session stays
      settled, the conversation and identity stay, and the logs only grow. */
  lemma {:induction false} PressesKeepHistory(s: Session, inputs: seq<PressInput>)
    requires Settled(s)
    ensures var t := Presses(s, inputs);
      && Settled(t)
      && t.conversationId == s.conversationId && t.userId == s.userId && t.isInitialized == s.isInitialized
      && s.messages <= t.messages
      && s.mistakes <= t.mistakes
    decreases |inputs|
  {
    if inputs != [] {
      var next := Press(s, inputs[0].prepare, inputs[0].env).session;
      StopTurnNoRollback(s, inputs[0].env);
      PressesKeepHistory(next, inputs[1..]);
    }
  }
}
