/** The root layout's authentication bootstrap. */
module Layout {
  import opened Types
  import opened Effects
  import opened ConversationStore

  /** The user signInAnonymously returns (the stored session's or a new one). */
  datatype AuthUser = AuthUser(id: string)

  /** The session after initAuth: the user id when sign-in returns a user,
      then initialized whatever happened. */
  function AfterAuth(s: Session, signIn: Result<Option<AuthUser>>): Session {
    var signedIn := if signIn.Success? && signIn.value.Some? then s.(userId := Some(signIn.value.value.id)) else s;
    signedIn.(isInitialized := true)
  }

  lemma AfterAuthOutcome(s: Session, signIn: Result<Option<AuthUser>>)
    ensures var r := AfterAuth(s, signIn);
      && r.isInitialized
      && r.userId == (if signIn.Success? && signIn.value.Some? then Some(signIn.value.value.id) else s.userId)
      && r.(userId := s.userId, isInitialized := s.isInitialized) == s
  {
  }

  method InitAuth(store: Store, signIn: Result<Option<AuthUser>>) returns (calls: seq<Call>)
    modifies store
    ensures store.Snapshot() == AfterAuth(old(store.Snapshot()), signIn)
    ensures store.statusLog == old(store.statusLog)
    ensures calls == [SignIn]
  {
    calls := [SignIn];
    if signIn.Success? && signIn.value.Some? {
      store.SetUserId(signIn.value.value.id);
    }
    store.SetInitialized(true);
  }
}
