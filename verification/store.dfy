/** The shared session store: one mutable record holding the active
    conversation, its message and mistake logs, the turn status and the
    authentication bootstrap state. */
module ConversationStore {
  import opened Types

  /** The value of the store's data fields at one moment. */
  datatype Session = Session(
    conversationId: Option<string>,
    userId: Option<string>,
    messages: seq<Message>,
    mistakes: seq<Mistake>,
    status: RecordingStatus,
    isInitialized: bool)

  /** The store's initial value: nothing known, nothing logged, idle. */
  const Initial: Session := Session(None, None, [], [], Idle, false)

  /** What `reset` leaves behind: the conversation is forgotten, the identity kept. */
  function ResetOf(s: Session): (r: Session)
    ensures r.conversationId == None && r.messages == [] && r.mistakes == [] && r.status == Idle
    ensures r.userId == s.userId && r.isInitialized == s.isInitialized
  {
    s.(conversationId := None, messages := [], mistakes := [], status := Idle)
  }

  /** Resetting twice is the same as resetting once. */
  lemma ResetIdempotent(s: Session)
    ensures ResetOf(ResetOf(s)) == ResetOf(s)
  {
  }

  /** Resetting forgets everything a conversation added: the result depends
      only on the identity fields. */
  lemma ResetForgetsConversation(s: Session, t: Session)
    requires s.userId == t.userId && s.isInitialized == t.isInitialized
    ensures ResetOf(s) == ResetOf(t)
  {
  }

  class Store {
    var conversationId: Option<string>
    var userId: Option<string>
    var messages: seq<Message>
    var mistakes: seq<Mistake>
    var status: RecordingStatus
    var isInitialized: bool
    /** Every value written to `status`, oldest first. */
    ghost var statusLog: seq<RecordingStatus>

    function Snapshot(): Session
      reads this
    {
      Session(conversationId, userId, messages, mistakes, status, isInitialized)
    }

    constructor ()
      ensures Snapshot() == Initial && statusLog == []
    {
      conversationId := None;
      userId := None;
      messages := [];
      mistakes := [];
      status := Idle;
      isInitialized := false;
      statusLog := [];
    }

    method SetUserId(id: string)
      modifies this
      ensures Snapshot() == old(Snapshot()).(userId := Some(id))
      ensures statusLog == old(statusLog)
    {
      userId := Some(id);
    }

    method SetConversationId(id: Option<string>)
      modifies this
      ensures Snapshot() == old(Snapshot()).(conversationId := id)
      ensures statusLog == old(statusLog)
    {
      conversationId := id;
    }

    method AddMessage(m: Message)
      modifies this
      ensures Snapshot() == old(Snapshot()).(messages := old(messages) + [m])
      ensures statusLog == old(statusLog)
    {
      messages := messages + [m];
    }

    method AddMistake(k: Mistake)
      modifies this
      ensures Snapshot() == old(Snapshot()).(mistakes := old(mistakes) + [k])
      ensures statusLog == old(statusLog)
    {
      mistakes := mistakes + [k];
    }

    method SetMistakes(ks: seq<Mistake>)
      modifies this
      ensures Snapshot() == old(Snapshot()).(mistakes := ks)
      ensures statusLog == old(statusLog)
    {
      mistakes := ks;
    }

    method SetStatus(st: RecordingStatus)
      modifies this
      ensures Snapshot() == old(Snapshot()).(status := st)
      ensures statusLog == old(statusLog) + [st]
    {
      status := st;
      statusLog := statusLog + [st];
    }

    method SetInitialized(b: bool)
      modifies this
      ensures Snapshot() == old(Snapshot()).(isInitialized := b)
      ensures statusLog == old(statusLog)
    {
      isInitialized := b;
    }

    method Reset()
      modifies this
      ensures Snapshot() == ResetOf(old(Snapshot()))
      ensures statusLog == old(statusLog) + [Idle]
    {
      conversationId := None;
      messages := [];
      mistakes := [];
      status := Idle;
      statusLog := statusLog + [Idle];
    }
  }
}
