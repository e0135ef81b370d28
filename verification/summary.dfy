/** The summary screen: fetching the conversation's mistakes from the backend
    (falling back to the store's), what the screen shows for them, and
    starting over. */
module Summary {
  import opened Types
  import opened Effects
  import opened ConversationStore

  /** The effect that loads the mistakes when the screen opens. `storeMistakes`
      is the store's list as read when the effect runs. */
  method LoadMistakes(store: Store, fetched: Result<seq<Mistake>>)
    returns (calls: seq<Call>, displayed: seq<Mistake>, loading: bool)
    modifies store
    ensures Truthy(old(store.conversationId)) && fetched.Success? ==>
              store.Snapshot() == old(store.Snapshot()).(mistakes := fetched.value) && displayed == fetched.value
    ensures !(Truthy(old(store.conversationId)) && fetched.Success?) ==>
              store.Snapshot() == old(store.Snapshot()) && displayed == old(store.mistakes)
    ensures calls == if Truthy(old(store.conversationId)) then [FetchMistakes(old(store.conversationId).value)] else []
    ensures displayed == store.mistakes
    ensures !loading
    ensures store.statusLog == old(store.statusLog)
  {
    var storeMistakes := store.mistakes;
    if Truthy(store.conversationId) {
      calls := [FetchMistakes(store.conversationId.value)];
      if fetched.Success? {
        store.SetMistakes(fetched.value);
        displayed := fetched.value;
      } else {
        displayed := storeMistakes;
      }
    } else {
      calls := [];
      displayed := storeMistakes;
    }
    loading := false;
  }

  /** "New Conversation": forget this conversation, then go back home. */
  method HandleStartNew(store: Store) returns (navigated: bool)
    modifies store
    ensures store.Snapshot() == ResetOf(old(store.Snapshot()))
    ensures store.statusLog == old(store.statusLog) + [Idle]
    ensures navigated
  {
    store.Reset();
    navigated := true;
  }

  /** What the screen shows once loaded. */
  datatype SummaryView =
    | Congratulations
    | MistakeList(subtitle: string, items: seq<Mistake>)

  function Digit(d: nat): (c: char)
    requires d < 10
    ensures '0' <= c <= '9' && c as int - '0' as int == d
  {
    ('0' as int + d) as char
  }

  /** The number a string of decimal digits denotes. */
  function DigitsValue(r: string): nat
    requires forall i :: 0 <= i < |r| ==> '0' <= r[i] <= '9'
  {
    if r == [] then 0 else 10 * DigitsValue(r[..|r| - 1]) + (r[|r| - 1] as int - '0' as int)
  }

  /** The decimal numeral of n, as the count is rendered in the subtitle. */
  function Decimal(n: nat): (r: string)
    ensures |r| >= 1
    ensures forall i :: 0 <= i < |r| ==> '0' <= r[i] <= '9'
    ensures |r| > 1 ==> r[0] != '0'
  {
    if n < 10 then [Digit(n)] else Decimal(n / 10) + [Digit(n % 10)]
  }

  /** The numeral denotes the count it renders. */
  lemma {:induction false} DecimalValue(n: nat)
    ensures DigitsValue(Decimal(n)) == n
  {
    if n >= 10 {
      var r := Decimal(n);
      assert r[..|r| - 1] == Decimal(n / 10);
      DecimalValue(n / 10);
    }
  }

  /** The subtitle: the count, then "mistake" or "mistakes", then "detected". */
  function Subtitle(count: nat): string {
    Decimal(count) + " mistake" + (if count > 1 then "s" else "") + " detected"
  }

  /** What the loading effect's dependencies are compared on: the
      conversation id, and the identity of the store's mistake list. Each
      fetch builds a new array, so the list stored after a successful fetch
      has an identity no earlier list had. */
  datatype EffectDeps = EffectDeps(conversationId: Option<string>, listIdentity: nat)

  /** One run of the effect: its fetch call, if any, and the dependencies
      afterwards. A successful fetch is stored with `setMistakes`, which
      gives the store's list a fresh identity. */
  function EffectRun(deps: EffectDeps, outcome: Result<seq<Mistake>>): (run: (seq<Call>, EffectDeps))
    ensures run.1.conversationId == deps.conversationId
    ensures run.1 != deps <==> Truthy(deps.conversationId) && outcome.Success?
  {
    if !Truthy(deps.conversationId) then ([], deps)
    else if outcome.Success? then ([FetchMistakes(deps.conversationId.value)], deps.(listIdentity := deps.listIdentity + 1))
    else ([FetchMistakes(deps.conversationId.value)], deps)
  }

  /** The effect re-run after each run while a watched dependency changed.
      With `watchList` the store's mistake list is watched, as in the
      dependency list as written; without it only the conversation id is.
      `outcomes` are the answers of the successive runs' fetches; the result
      is the fetch calls made while they last. */
  function EffectRuns(watchList: bool, deps: EffectDeps, outcomes: seq<Result<seq<Mistake>>>): (calls: seq<Call>)
    ensures |calls| <= |outcomes|
    decreases |outcomes|
  {
    if outcomes == [] then []
    else
      var (calls, after) := EffectRun(deps, outcomes[0]);
      var changed := after.conversationId != deps.conversationId || (watchList && after.listIdentity != deps.listIdentity);
      calls + (if changed then EffectRuns(watchList, after, outcomes[1..]) else [])
  }

  /** The loading effect as written: the store's mistake list is a dependency. */
  function EffectRunsAsWritten(deps: EffectDeps, outcomes: seq<Result<seq<Mistake>>>): (calls: seq<Call>)
    ensures |calls| <= |outcomes|
    ensures !Truthy(deps.conversationId) ==> calls == []
  {
    EffectRuns(true, deps, outcomes)
  }

  /** With a conversation and a backend that answers, the effect as written
      fetches again after every answer: n answers mean n fetches, for every n. */
  lemma {:induction false} EffectRefetchesWithoutEnd(deps: EffectDeps, outcomes: seq<Result<seq<Mistake>>>)
    requires Truthy(deps.conversationId)
    requires forall i :: 0 <= i < |outcomes| ==> outcomes[i].Success?
    ensures EffectRunsAsWritten(deps, outcomes) == seq(|outcomes|, _ => FetchMistakes(deps.conversationId.value))
    decreases |outcomes|
  {
    if outcomes != [] {
      var after := EffectRun(deps, outcomes[0]).1;
      EffectRefetchesWithoutEnd(after, outcomes[1..]);
    }
  }

  /** The effect with the conversation id as its only dependency: one run per
      conversation, which is the first run of the effect as written. */
  function EffectRunsIntended(deps: EffectDeps, outcomes: seq<Result<seq<Mistake>>>): (calls: seq<Call>)
    ensures |calls| <= 1
    ensures calls != [] <==> Truthy(deps.conversationId) && outcomes != []
    ensures calls != [] ==> calls == [FetchMistakes(deps.conversationId.value)]
    ensures outcomes != [] ==> calls == EffectRunsAsWritten(deps, outcomes[..1])
  {
    EffectRuns(false, deps, outcomes)
  }

  function View(mistakes: seq<Mistake>): (v: SummaryView)
    ensures v.Congratulations? <==> mistakes == []
    ensures v.MistakeList? ==> v.items == mistakes
    ensures v.MistakeList? ==> v.subtitle == Subtitle(|mistakes|)
  {
    if |mistakes| == 0 then Congratulations
    else MistakeList(Subtitle(|mistakes|), mistakes)
  }

  /** The subtitle says "mistakes" exactly when there is more than one. */
  lemma SubtitlePlural(count: nat)
    ensures Subtitle(count) == Decimal(count) + " mistakes detected" <==> count > 1
    ensures Subtitle(count) == Decimal(count) + " mistake detected" <==> count <= 1
  {
    var d := Decimal(count);
    if count > 1 {
      assert Subtitle(count) == d + " mistakes detected";
      assert |Subtitle(count)| != |d + " mistake detected"|;
    } else {
      assert Subtitle(count) == d + " mistake detected";
      assert |Subtitle(count)| != |d + " mistakes detected"|;
    }
  }

  lemma SubtitleExamples()
    ensures Subtitle(1) == "1 mistake detected"
    ensures Subtitle(3) == "3 mistakes detected"
    ensures Subtitle(12) == "12 mistakes detected"
  {
    DecimalExamples();
  }

  lemma DecimalExamples()
    ensures Decimal(1) == "1" && Decimal(3) == "3" && Decimal(12) == "12"
  {
    assert Digit(1) == '1' && Digit(2) == '2' && Digit(3) == '3';
    assert Decimal(12) == Decimal(1) + [Digit(2)];
  }
}
