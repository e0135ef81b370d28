/** The home screen: starting a new conversation for the signed-in user. */
module Home {
  import opened Types
  import opened Effects
  import opened ConversationStore

  /** The session after "Start Conversation", given what createConversation does. */
  function AfterStart(s: Session, created: Result<Stamp>): Session {
    if !Truthy(s.userId) then s
    else
      match created
      case Success(st) => ResetOf(s).(conversationId := Some(st.id))
      case Failure(_) => ResetOf(s)
  }

  /** Without a user nothing changes; with one, the previous conversation is
      cleared whatever happens, the new id is recorded only when creation
      succeeds, and the identity is kept. */
  lemma AfterStartOutcome(s: Session, created: Result<Stamp>)
    ensures var r := AfterStart(s, created);
      && (!Truthy(s.userId) ==> r == s)
      && (Truthy(s.userId) ==>
            && r.messages == [] && r.mistakes == [] && r.status == Idle
            && r.conversationId == (if created.Success? then Some(created.value.id) else None))
      && r.userId == s.userId && r.isInitialized == s.isInitialized
  {
  }

  /** Starting twice from any two sessions of the same user with the same
      outcome gives the same session: nothing of the old conversation survives. */
  lemma AfterStartForgetsOldConversation(s: Session, t: Session, created: Result<Stamp>)
    requires Truthy(s.userId) && s.userId == t.userId && s.isInitialized == t.isInitialized
    ensures AfterStart(s, created) == AfterStart(t, created)
  {
    ResetForgetsConversation(s, t);
  }

  method HandleStartConversation(store: Store, created: Result<Stamp>) returns (calls: seq<Call>, navigated: bool)
    modifies store
    ensures store.Snapshot() == AfterStart(old(store.Snapshot()), created)
    ensures Truthy(old(store.userId)) ==>
              calls == [CreateConversation(old(store.userId).value)] && navigated == created.Success?
              && store.statusLog == old(store.statusLog) + [Idle]
    ensures !Truthy(old(store.userId)) ==> calls == [] && !navigated && store.statusLog == old(store.statusLog)
  {
    if !Truthy(store.userId) {
      return [], false;
    }
    var userId := store.userId.value;
    store.Reset();
    calls := [CreateConversation(userId)];
    if created.Success? {
      var conversation := Conversation(created.value.id, userId, created.value.createdAt, None);
      store.SetConversationId(Some(conversation.id));
      navigated := true;
    } else {
      navigated := false;
    }
  }
}
