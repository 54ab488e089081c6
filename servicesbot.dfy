/**
 The services chat page as a state machine. A page holds the input field, the visible
 chat log, the browser's session storage and the loading flag. The two network calls
 are split at their await points: `Submit` starts a turn, `OnRetrieval` receives the
 document service's outcome and builds the request, `OnCompletion` receives the
 completion endpoint's outcome. The window that the request quoted travels from
 `OnRetrieval` to `OnCompletion` in a `Turn`, as the page's closure carries it.
 */
module ServicesBot {
  import opened Payloads
  import opened JsString
  import Prompt

  /** Session-storage key the memory is read from and written to. */
  const MemoryKey: string := "botMessages_services"

  /** Session-storage key the clear action removes (one letter shorter than MemoryKey). */
  const ClearedKey: string := "botMessage_services"

  /** The greeting the page starts with. */
  const InitialGreeting: string := "Ask me anything about Hanoi University public administration service"

  /** The greeting the clear action puts back (spelled differently). */
  const ClearedGreeting: string := "Ask me anything about Hanoi University public adminstration service"

  datatype ItemType = Bot | User

  /** One entry of the visible transcript. */
  datatype ChatLogItem = ChatLogItem(kind: ItemType, message: Payload)

  /** What the document service's request ended with: the parsed `relevant_docs`
      (absent when the field is missing), or a failure (transport, status, parse). */
  datatype Retrieval = Retrieved(docs: Prompt.Option<seq<string>>) | RetrievalFailed

  /** What the completion request ended with: the normalized payload, or a failure. */
  datatype Completion = Completed(payload: Payload) | CompletionFailed

  /** A request in flight: the messages sent and the memory window they quoted. */
  datatype Turn = Turn(messages: seq<Prompt.Message>, recent: seq<Payload>)

  function Greeting(text: string): ChatLogItem
  {
    ChatLogItem(Bot, Text(text))
  }

  /** `JSON.parse(sessionStorage.getItem(MemoryKey) || '[]')`. */
  function StoredResponses(store: map<string, seq<Payload>>): seq<Payload>
  {
    if MemoryKey in store then store[MemoryKey] else []
  }

  /** Removing the clear action's key never touches the memory's key. */
  lemma ClearedKeyIsNotMemoryKey(store: map<string, seq<Payload>>)
    ensures ClearedKey != MemoryKey
    ensures StoredResponses(store - {ClearedKey}) == StoredResponses(store)
  {
    assert |ClearedKey| != |MemoryKey|;
  }

  class Page {
    var inputQuestion: string
    var chatLog: seq<ChatLogItem>
    var store: map<string, seq<Payload>>
    var isLoading: bool

    /** The transcript always opens with one of the two greetings. */
    ghost predicate Valid()
      reads this
    {
      |chatLog| >= 1 && (chatLog[0] == Greeting(InitialGreeting) || chatLog[0] == Greeting(ClearedGreeting))
    }

    /** The remembered bot responses as the next prompt reads them. */
    function Memory(): seq<Payload>
      reads this
    {
      StoredResponses(store)
    }

    /** A freshly mounted page over whatever the browser session already stores. */
    constructor (session: map<string, seq<Payload>>)
      ensures Valid()
      ensures inputQuestion == "" && chatLog == [Greeting(InitialGreeting)]
      ensures store == session && !isLoading
    {
      inputQuestion := "";
      chatLog := [Greeting(InitialGreeting)];
      store := session;
      isLoading := false;
    }

    /** The input field's change handler. */
    method SetInput(text: string)
      modifies this`inputQuestion
      ensures inputQuestion == text
    {
      inputQuestion := text;
    }

    /** The form's submit handler: a blank input changes nothing and starts no retrieval;
        otherwise the question is logged, retrieval starts for it and the input is cleared. */
    method Submit() returns (started: Prompt.Option<string>)
      requires Valid()
      modifies this`chatLog, this`inputQuestion
      ensures Valid()
      ensures IsBlank(old(inputQuestion)) ==>
        started == Prompt.None && chatLog == old(chatLog) && inputQuestion == old(inputQuestion)
      ensures !IsBlank(old(inputQuestion)) ==>
        && started == Prompt.Some(old(inputQuestion))
        && chatLog == old(chatLog) + [ChatLogItem(User, Text(old(inputQuestion)))]
        && inputQuestion == ""
    {
      TrimEmptyIffBlank(inputQuestion);
      if Trim(inputQuestion) == "" {
        return Prompt.None;
      }
      chatLog := chatLog + [ChatLogItem(User, Text(inputQuestion))];
      started := Prompt.Some(inputQuestion);
      inputQuestion := "";
    }

    /** The clear button as written: with at least one exchange logged, the transcript goes
        back to the greeting and `ClearedKey` is removed, which leaves the memory as it was. */
    method Clear()
      requires Valid()
      modifies this`chatLog, this`store
      ensures Valid()
      ensures |old(chatLog)| <= 1 ==>
        && |old(chatLog)| == 1 && old(chatLog)[0].kind == Bot
        && chatLog == old(chatLog) && store == old(store)
      ensures |old(chatLog)| > 1 ==>
        chatLog == [Greeting(ClearedGreeting)] && store == old(store) - {ClearedKey}
      ensures Memory() == old(Memory())
    {
      if |chatLog| > 1 {
        chatLog := [Greeting(ClearedGreeting)];
        ClearedKeyIsNotMemoryKey(store);
        store := store - {ClearedKey};
      }
    }

    /** The clear button as evidently intended: the same, removing the memory's own key. */
    method ClearIntended()
      requires Valid()
      modifies this`chatLog, this`store
      ensures Valid()
      ensures |old(chatLog)| <= 1 ==>
        && |old(chatLog)| == 1 && old(chatLog)[0].kind == Bot
        && chatLog == old(chatLog) && store == old(store)
      ensures |old(chatLog)| > 1 ==>
        chatLog == [Greeting(ClearedGreeting)] && store == old(store) - {MemoryKey} && Memory() == []
    {
      if |chatLog| > 1 {
        chatLog := [Greeting(ClearedGreeting)];
        store := store - {MemoryKey};
      }
    }

    /** The continuation of the document request. A failure is only logged: no request is
        built and nothing changes. Otherwise the memory window is read, the messages are
        built from it and the documents, and the loading flag is raised. */
    method OnRetrieval(question: string, outcome: Retrieval) returns (turn: Prompt.Option<Turn>)
      requires Valid()
      modifies this`isLoading
      ensures Valid()
      ensures outcome.RetrievalFailed? ==> turn == Prompt.None && isLoading == old(isLoading)
      ensures outcome.Retrieved? ==>
        && turn == Prompt.Some(Turn(Prompt.BuildMessages(question, outcome.docs, Memory()),
                                    Prompt.RecentWindow(Memory())))
        && isLoading
    {
      if outcome.RetrievalFailed? {
        return Prompt.None;
      }
      var stored := StoredResponses(store);
      var recent := Prompt.RecentWindow(stored);
      var messages := Prompt.BuildMessages(question, outcome.docs, stored);
      isLoading := true;
      turn := Prompt.Some(Turn(messages, recent));
    }

    /** The continuation of the completion request. On success the memory becomes the
        window the request quoted followed by the response, and the response is logged;
        on failure neither changes. Either way the loading flag is lowered. */
    method OnCompletion(turn: Turn, outcome: Completion)
      requires Valid()
      modifies this`chatLog, this`store, this`isLoading
      ensures Valid() && !isLoading
      ensures outcome.CompletionFailed? ==> chatLog == old(chatLog) && store == old(store)
      ensures outcome.Completed? ==>
        && store == old(store)[MemoryKey := Prompt.Remember(turn.recent, outcome.payload)]
        && Memory() == turn.recent + [outcome.payload]
        && chatLog == old(chatLog) + [ChatLogItem(Bot, outcome.payload)]
      ensures outcome.Completed? && |turn.recent| <= Prompt.Window ==> |Memory()| <= Prompt.Window + 1
    {
      if outcome.Completed? {
        store := store[MemoryKey := Prompt.Remember(turn.recent, outcome.payload)];
        chatLog := chatLog + [ChatLogItem(Bot, outcome.payload)];
      }
      isLoading := false;
    }
  }

  /** A fresh session, one question answered with `answer`, then the clear button. */
  method TurnThenClear(docs: seq<string>, answer: Payload) returns (page: Page)
    ensures fresh(page) && page.Valid()
    ensures page.chatLog == [Greeting(ClearedGreeting)]
    ensures page.Memory() == [answer]
  {
    var question := "How to pay tuition fees?";
    page := new Page(map[]);
    page.SetInput(question);
    var started := page.Submit();
    assert started == Prompt.Some(question) by {
      assert !IsBlank(question) by { assert !IsWhiteSpace(question[0]); }
    }
    var turn := page.OnRetrieval(question, Retrieved(Prompt.Some(docs)));
    page.OnCompletion(turn.value, Completed(answer));
    assert page.Memory() == [answer] && |page.chatLog| == 3;
    page.Clear();
  }

  /** One full turn on a fresh session, then the clear button: the transcript is reset, but
      the answer is still remembered, and the next question whose retrieval finds documents
      quotes it as CONTEXT. */
  method ClearKeepsMemoryScenario(docs: seq<string>, answer: Payload)
    returns (kept: seq<Payload>, log: seq<ChatLogItem>, next: seq<Prompt.Message>)
    requires docs != []
    ensures log == [Greeting(ClearedGreeting)]
    ensures kept == [answer]
    ensures |next| == 3
    ensures next[2].content == Prompt.ContextMark + Render([answer]) + "; " + Prompt.DocumentsMark + Prompt.JoinLines(docs)
  {
    var page := TurnThenClear(docs, answer);
    kept, log := page.Memory(), page.chatLog;
    var again := page.OnRetrieval("How to pay tuition fees?", Retrieved(Prompt.Some(docs)));
    next := again.value.messages;
    QuotedAfterClear("How to pay tuition fees?", docs, answer, kept, next);
  }

  lemma {:induction false} QuotedAfterClear(question: string, docs: seq<string>, answer: Payload,
                                            kept: seq<Payload>, next: seq<Prompt.Message>)
    requires docs != [] && kept == [answer]
    requires next == Prompt.BuildMessages(question, Prompt.Some(docs), kept)
    ensures |next| == 3
    ensures next[2].content == Prompt.ContextMark + Render([answer]) + "; " + Prompt.DocumentsMark + Prompt.JoinLines(docs)
  {
    assert Prompt.RecentWindow(kept) == [answer];
    Prompt.AssistantGrounding(question, Prompt.Some(docs), kept);
  }

  /** The same turn with the intended clear: the memory is empty afterwards. */
  method ClearIntendedScenario(docs: seq<string>, answer: Payload) returns (kept: seq<Payload>, log: seq<ChatLogItem>)
    ensures log == [Greeting(ClearedGreeting)]
    ensures kept == []
  {
    var page := new Page(map[]);
    page.SetInput("How to pay tuition fees?");
    var started := page.Submit();
    assert started == Prompt.Some("How to pay tuition fees?") by {
      assert !IsBlank("How to pay tuition fees?") by { assert !IsWhiteSpace("How to pay tuition fees?"[0]); }
    }
    var turn := page.OnRetrieval(started.value, Retrieved(Prompt.Some(docs)));
    page.OnCompletion(turn.value, Completed(answer));
    assert |page.chatLog| == 3;
    page.ClearIntended();
    kept, log := page.Memory(), page.chatLog;
  }
}
