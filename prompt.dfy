/**
 Context assembly for one question on the services page: the text made of the
 retrieved documents, the window of remembered bot responses, the choice of system
 instruction and of the grounding assistant message, and the role-tagged message
 list sent to the completion endpoint.
 */
module Prompt {
  import opened Payloads

  datatype Option<T> = None | Some(value: T)

  datatype Role = System | User | Assistant

  datatype Message = Message(role: Role, content: string)

  /** How many remembered responses a prompt may quote. */
  const Window: nat := 5

  /** The three system instructions, as stand-ins for their English wording: grounded in
      the remembered CONTEXT and the documents, grounded in the documents only, or plain. */
  const SysWithContext: string := "system: CONTEXT first, then HANU documents"
  const SysDocsOnly: string := "system: HANU documents"
  const SysPlain: string := "system: plain"

  /** Marks that open the two parts of the assistant message. */
  const ContextMark: string := "CONTEXT: "
  const DocumentsMark: string := "\nHANU documents: "

  function Min(a: int, b: int): int { if a < b then a else b }

  // ---------------------------------------------------------------- documents

  /** `docsData.relevant_docs` is present and non-empty. */
  predicate HasDocs(docs: Option<seq<string>>)
  {
    docs.Some? && |docs.value| > 0
  }

  /** The text the loop over the documents accumulates: each document followed by a line break. */
  function ContextText(docs: seq<string>): string
  {
    if docs == [] then "" else ContextText(docs[..|docs| - 1]) + docs[|docs| - 1] + "\n"
  }

  /** Reference reading: the documents, first to last, each followed by a line break. */
  function JoinLines(docs: seq<string>): string
  {
    if docs == [] then "" else docs[0] + "\n" + JoinLines(docs[1..])
  }

  /** The accumulating loop, step by step. */
  method BuildContextText(docs: seq<string>) returns (text: string)
    ensures text == ContextText(docs)
  {
    text := "";
    for i := 0 to |docs|
      invariant text == ContextText(docs[..i])
    {
      assert docs[..i + 1][..i] == docs[..i];
      text := text + docs[i] + "\n";
    }
    assert docs[..|docs|] == docs;
  }

  lemma {:induction false} ContextTextAppend(a: seq<string>, b: seq<string>)
    ensures ContextText(a + b) == ContextText(a) + ContextText(b)
    decreases |b|
  {
    if b == [] {
      assert a + b == a;
    } else {
      var b' := b[..|b| - 1];
      assert (a + b)[..|a + b| - 1] == a + b';
      ContextTextAppend(a, b');
    }
  }

  /** The accumulated text is the documents in received order, each ended by a line break. */
  lemma {:induction false} ContextTextIsJoinLines(docs: seq<string>)
    ensures ContextText(docs) == JoinLines(docs)
    decreases |docs|
  {
    if docs != [] {
      assert docs == [docs[0]] + docs[1..];
      ContextTextAppend([docs[0]], docs[1..]);
      assert [docs[0]][..0] == [];
      ContextTextIsJoinLines(docs[1..]);
    }
  }

  /** Document `i` follows documents `0..i` in the accumulated text. */
  lemma {:induction false} ContextTextInOrder(docs: seq<string>, i: nat)
    requires i < |docs|
    ensures ContextText(docs[..i]) + docs[i] + "\n" <= ContextText(docs)
  {
    var head := docs[..i + 1];
    assert docs == head + docs[i + 1..];
    ContextTextAppend(head, docs[i + 1..]);
    assert head[..i] == docs[..i];
    assert ContextText(head) == ContextText(docs[..i]) + docs[i] + "\n";
  }

  /** Every document contributes at least its line break. */
  lemma {:induction false} ContextTextEmptyIff(docs: seq<string>)
    ensures ContextText(docs) == "" <==> docs == []
    ensures |ContextText(docs)| >= |docs|
    decreases |docs|
  {
    if docs != [] {
      ContextTextEmptyIff(docs[..|docs| - 1]);
    }
  }

  // ---------------------------------------------------------------- memory window

  /** The last `min(|stored|, Window)` remembered responses, oldest first. */
  function RecentWindow(stored: seq<Payload>): (r: seq<Payload>)
    ensures |r| == Min(|stored|, Window)
    ensures stored == stored[..|stored| - |r|] + r
    ensures r == [] <==> stored == []
  {
    var start := if |stored| - Window > 0 then |stored| - Window else 0;
    assert stored == stored[..start] + stored[start..];
    stored[start..]
  }

  /** What a successful completion writes back: the window it read, then the new response. */
  function Remember(recent: seq<Payload>, response: Payload): (r: seq<Payload>)
    ensures |r| == |recent| + 1 && r[|r| - 1] == response
    ensures r[..|recent|] == recent
  {
    recent + [response]
  }

  /** The stored list after reading the window and remembering each response in turn. */
  function Replay(stored: seq<Payload>, responses: seq<Payload>): (r: seq<Payload>)
    ensures responses != [] ==> 1 <= |r| <= Window + 1 && r[|r| - 1] == responses[|responses| - 1]
    decreases |responses|
  {
    if responses == [] then stored
    else Replay(Remember(RecentWindow(stored), responses[0]), responses[1..])
  }

  /** `stored` keeps at least the last `Window` entries of `history`, in order. */
  ghost predicate Tracks(stored: seq<Payload>, history: seq<Payload>)
  {
    && |stored| <= |history|
    && stored == history[|history| - |stored|..]
    && |stored| >= Min(|history|, Window)
  }

  /** The last `n` entries of a suffix of `h` are the last `n` entries of `h`. */
  lemma {:induction false} SuffixOfSuffix(s: seq<Payload>, h: seq<Payload>, n: nat)
    requires |s| <= |h| && s == h[|h| - |s|..] && n <= |s|
    ensures s[|s| - n..] == h[|h| - n..]
  {
    forall j | |s| - n <= j < |s|
      ensures s[j] == h[|h| - |s| + j]
    {
    }
  }

  /** A list that tracks the history yields the history's own window. */
  lemma {:induction false} WindowOfTracked(stored: seq<Payload>, history: seq<Payload>)
    requires Tracks(stored, history)
    ensures RecentWindow(stored) == RecentWindow(history)
  {
    var w, wh := RecentWindow(stored), RecentWindow(history);
    var n := |w|;
    assert w == stored[|stored| - n..] by {
      assert stored == stored[..|stored| - n] + w;
    }
    assert wh == history[|history| - n..] by {
      assert history == history[..|history| - n] + wh;
    }
    SuffixOfSuffix(stored, history, n);
  }

  /** Appending the same response to the history's window and to the history keeps tracking. */
  lemma {:induction false} TracksAfterAppend(w: seq<Payload>, history: seq<Payload>, response: Payload)
    requires |w| == Min(|history|, Window) && w == history[|history| - |w|..]
    ensures Tracks(w + [response], history + [response])
  {
    var h' := history + [response];
    assert h'[|h'| - (|w| + 1)..] == w + [response];
  }

  /** One completion: the window read from the stored list is the window of the whole
      history, and the written list still tracks the history with the new response. */
  lemma {:induction false} WindowTracksHistory(stored: seq<Payload>, history: seq<Payload>, response: Payload)
    requires Tracks(stored, history)
    ensures RecentWindow(stored) == RecentWindow(history)
    ensures Tracks(Remember(RecentWindow(stored), response), history + [response])
  {
    WindowOfTracked(stored, history);
    var w := RecentWindow(history);
    assert w == history[|history| - |w|..] by {
      assert history == history[..|history| - |w|] + w;
    }
    TracksAfterAppend(w, history, response);
  }

  /** After any number of completions the window read is the last `min(N, Window)`
      responses of the whole history, in arrival order. */
  lemma {:induction false} ReplayWindow(stored: seq<Payload>, responses: seq<Payload>)
    ensures RecentWindow(Replay(stored, responses)) == RecentWindow(stored + responses)
    decreases |responses|
  {
    ReplayTracks(stored, stored, responses);
    assert stored[|stored| - |stored|..] == stored;
  }

  lemma {:induction false} ReplayTracks(stored: seq<Payload>, history: seq<Payload>, responses: seq<Payload>)
    requires Tracks(stored, history)
    ensures Tracks(Replay(stored, responses), history + responses)
    ensures RecentWindow(Replay(stored, responses)) == RecentWindow(history + responses)
    decreases |responses|
  {
    if responses == [] {
      assert history + responses == history;
      WindowTracksHistory(stored, history, Text(""));
    } else {
      var p, rest := responses[0], responses[1..];
      var next := Remember(RecentWindow(stored), p);
      var longer := history + [p];
      assert longer + rest == history + responses;
      WindowTracksHistory(stored, history, p);
      ReplayTracks(next, longer, rest);
      assert Replay(stored, responses) == Replay(next, rest);
    }
  }

  // ---------------------------------------------------------------- messages

  /** The system instruction: grounded variants only when documents were found. */
  function SystemPrompt(hasDocs: bool, hasRecent: bool): string
  {
    if !hasDocs then SysPlain
    else if hasRecent then SysWithContext
    else SysDocsOnly
  }

  /** The grounding message's text: an optional CONTEXT part, then the documents. */
  function AssistantContent(recent: seq<Payload>, contextText: string): string
  {
    (if recent != [] then ContextMark + Render(recent) + "; " else "") + DocumentsMark + contextText
  }

  /** `[system, user, assistant].filter(message => message !== null)`. */
  function DropNulls(ms: seq<Option<Message>>): (r: seq<Message>)
    ensures |r| <= |ms|
    ensures |r| == |ms| <==> forall i :: 0 <= i < |ms| ==> ms[i].Some?
    ensures forall m :: m in r <==> Some(m) in ms
  {
    if ms == [] then []
    else if ms[0].Some? then [ms[0].value] + DropNulls(ms[1..])
    else DropNulls(ms[1..])
  }

  /** Filtering a concatenation filters each part and keeps them in order. */
  lemma {:induction false} DropNullsAppend(a: seq<Option<Message>>, b: seq<Option<Message>>)
    ensures DropNulls(a + b) == DropNulls(a) + DropNulls(b)
    decreases |a|
  {
    if a != [] {
      assert (a + b)[0] == a[0];
      assert (a + b)[1..] == a[1..] + b;
      DropNullsAppend(a[1..], b);
    } else {
      assert a + b == b;
    }
  }

  /** A present message is kept, a null one dropped. */
  lemma {:induction false} DropNullsSingleton(m: Option<Message>)
    ensures DropNulls([m]) == if m.Some? then [m.value] else []
  {
    assert [m][1..] == [];
  }

  lemma {:induction false} DropNullsTriple(a: Message, b: Message, c: Option<Message>)
    ensures DropNulls([Some(a), Some(b), c]) == [a, b] + (if c.Some? then [c.value] else [])
  {
    var ms := [Some(a), Some(b), c];
    assert ms[1..] == [Some(b), c];
    assert [Some(b), c][1..] == [c];
    assert [c][1..] == [];
    assert DropNulls([c]) == (if c.Some? then [c.value] else []) + DropNulls([]);
    assert DropNulls([Some(b), c]) == [b] + DropNulls([c]);
    assert DropNulls(ms) == [a] + DropNulls([Some(b), c]);
  }

  /** The request for one question, given the retrieval's `relevant_docs` and the stored memory. */
  function BuildMessages(question: string, docs: Option<seq<string>>, stored: seq<Payload>): (r: seq<Message>)
    ensures |r| == if HasDocs(docs) then 3 else 2
    ensures r[0] == Message(System, SystemPrompt(HasDocs(docs), stored != []))
    ensures r[1] == Message(User, question)
    ensures HasDocs(docs) ==>
      r[2] == Message(Assistant, AssistantContent(RecentWindow(stored), JoinLines(docs.value)))
  {
    var recent := RecentWindow(stored);
    var contextText := if HasDocs(docs) then ContextText(docs.value) else "";
    var system := Message(System, SystemPrompt(HasDocs(docs), recent != []));
    var user := Message(User, question);
    var assistant := if HasDocs(docs) then Some(Message(Assistant, AssistantContent(recent, contextText))) else None;
    ContextTextIsJoinLines(if docs.Some? then docs.value else []);
    DropNullsTriple(system, user, assistant);
    DropNulls([Some(system), Some(user), assistant])
  }

  /** Exactly one system message, first, and exactly one user message, second, carrying
      the question unchanged; a third, assistant, message exactly when documents were found. */
  lemma {:induction false} PromptShape(question: string, docs: Option<seq<string>>, stored: seq<Payload>)
    ensures |BuildMessages(question, docs, stored)| == 3 <==> HasDocs(docs)
    ensures |BuildMessages(question, docs, stored)| == 2 <==> !HasDocs(docs)
    ensures BuildMessages(question, docs, stored)[1] == Message(User, question)
    ensures forall i :: 0 <= i < |BuildMessages(question, docs, stored)| ==>
      BuildMessages(question, docs, stored)[i].role == (if i == 0 then System else if i == 1 then User else Assistant)
  {
    var r := BuildMessages(question, docs, stored);
    assert r[0].role == System && r[1].role == User;
    assert HasDocs(docs) ==> r[2].role == Assistant;
    forall i | 0 <= i < |r|
      ensures r[i].role == (if i == 0 then System else if i == 1 then User else Assistant)
    {
      assert i == 0 || i == 1 || (i == 2 && HasDocs(docs));
    }
  }

  lemma {:induction false} SystemPromptsDistinct()
    ensures SysWithContext != SysDocsOnly && SysWithContext != SysPlain && SysDocsOnly != SysPlain
  {
    assert |SysWithContext| != |SysDocsOnly|;
    assert |SysWithContext| != |SysPlain|;
    assert |SysDocsOnly| != |SysPlain|;
  }

  /** Which system instruction is sent, each in both directions: the CONTEXT wording exactly
      when documents were found and something is remembered, the plain one exactly when no
      documents were found. */
  lemma {:induction false} SystemVariant(question: string, docs: Option<seq<string>>, stored: seq<Payload>)
    ensures var sys := BuildMessages(question, docs, stored)[0].content;
      && (sys == SysWithContext <==> HasDocs(docs) && stored != [])
      && (sys == SysDocsOnly <==> HasDocs(docs) && stored == [])
      && (sys == SysPlain <==> !HasDocs(docs))
  {
    SystemPromptsDistinct();
  }

  /** The assistant text opens with "CONTEXT: " exactly when the window is non-empty. */
  lemma {:induction false} AssistantContentParts(recent: seq<Payload>, contextText: string)
    ensures ContextMark <= AssistantContent(recent, contextText) <==> recent != []
    ensures recent != [] ==>
      AssistantContent(recent, contextText) == ContextMark + Render(recent) + "; " + DocumentsMark + contextText
    ensures recent == [] ==> AssistantContent(recent, contextText) == DocumentsMark + contextText
  {
    var content := AssistantContent(recent, contextText);
    if recent == [] {
      assert content[0] == '\n';
    } else {
      assert content == ContextMark + (Render(recent) + "; " + DocumentsMark + contextText);
    }
  }

  /** The grounding message opens with "CONTEXT: " exactly when something is remembered,
      quotes the window's rendering then, and always ends with the documents in received order. */
  lemma {:induction false} AssistantGrounding(question: string, docs: Option<seq<string>>, stored: seq<Payload>)
    requires HasDocs(docs)
    ensures var content := BuildMessages(question, docs, stored)[2].content;
      && (ContextMark <= content <==> stored != [])
      && (stored != [] ==> content == ContextMark + Render(RecentWindow(stored)) + "; " + DocumentsMark + JoinLines(docs.value))
      && (stored == [] ==> content == DocumentsMark + JoinLines(docs.value))
  {
    var recent := RecentWindow(stored);
    var content := BuildMessages(question, docs, stored)[2].content;
    assert content == AssistantContent(recent, JoinLines(docs.value));
    AssistantContentParts(recent, JoinLines(docs.value));
  }

  /** A question with one retrieved document and nothing remembered. */
  lemma {:induction false} TuitionScenario()
    ensures BuildMessages("How to pay tuition fees?", Some(["Tuition is payable via bank transfer."]), [])
      == [ Message(System, SysDocsOnly),
           Message(User, "How to pay tuition fees?"),
           Message(Assistant, DocumentsMark + "Tuition is payable via bank transfer." + "\n") ]
  {
    var question := "How to pay tuition fees?";
    var docs := ["Tuition is payable via bank transfer."];
    var r := BuildMessages(question, Some(docs), []);
    assert JoinLines(docs) == docs[0] + "\n" + JoinLines([]);
    assert JoinLines(docs) == docs[0] + "\n";
    AssistantContentParts([], JoinLines(docs));
    assert r[2] == Message(Assistant, DocumentsMark + docs[0] + "\n");
    assert r[1] == Message(User, question);
    assert r[0] == Message(System, SysDocsOnly);
    assert r == [r[0], r[1], r[2]];
  }

  /** A retrieval that found nothing: the plain instruction and the question only. */
  lemma {:induction false} NoDocumentsScenario(question: string, stored: seq<Payload>)
    ensures BuildMessages(question, Some([]), stored) == [Message(System, SysPlain), Message(User, question)]
    ensures BuildMessages(question, None, stored) == [Message(System, SysPlain), Message(User, question)]
  {
  }
}
