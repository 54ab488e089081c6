# Services chat page: context assembly and session memory

This project models the services chatbot page of the HANU assistant. For each question the page does four things. It asks a document service for the relevant documents. It builds a role-tagged message list for a completion endpoint. That list holds a system instruction, the question and, when documents were found, an assistant message that grounds the answer. The grounding message quotes the remembered bot responses as `CONTEXT:`, then the documents. Last, the page records the answer in the browser's session storage and in the visible chat log.

The project has four modules, one per concern of `src/app/services/page.tsx`:

- `JsString` (`jsstring.dfy`) models `String.prototype.trim`, which the submit handler uses to reject blank input.
- `Payloads` (`payloads.dfy`) models a bot response as JSON `message` or plain text (`Payload = Json(v) | Text(s)`). It also gives `Render`, the JavaScript coercion of an array of responses to text, used in `` `CONTEXT: ${recentResponses}` ``.
- `Prompt` (`prompt.dfy`) holds the pure policy:
  - the document text the `for` loop accumulates: `ContextText`, with the loop itself as `BuildContextText`;
  - the memory window (`RecentWindow`: the last `min(n, 5)` stored responses) and the list written back (`Remember`);
  - the system-instruction choice, the assistant content and the filtered message list (`BuildMessages`).
- `ServicesBot` (`servicesbot.dfy`) holds the page as a class `Page`. Its fields are `inputQuestion`, `chatLog`, `store` (session storage, a map from key to stored responses) and `isLoading`. Each handler is a method:
  - `Submit` is `handleSubmit`;
  - `Clear` is `clearChat`;
  - `OnRetrieval` is what follows the document request;
  - `OnCompletion` is what follows the completion request.

  Network outcomes are parameters of these methods. The memory window a request quoted is carried from `OnRetrieval` to `OnCompletion` in a `Turn` value, the way the page's closure carries `recentResponses`.

Behaviour of the code worth noting:

- A failed document request is caught and only logged (lines 62-70). No prompt is built and nothing changes. It does not degrade to "no documents".
- `isLoading` is raised only after retrieval has succeeded and the prompt is built (line 128). It is not raised before retrieval starts.
- The stored list is `recent ++ [answer]`, so it can hold 6 entries. Only reads are capped at 5.
- The clear action removes `botMessage_services` (line 48), but the memory lives under `botMessages_services`. A clear therefore leaves the memory in place (see Findings).
- When nothing is remembered, the assistant content still starts with a line break: `"\nHANU documents: " + docs`.
- The "clear only if more than the greeting" rule is keyed to the transcript length, not to the memory.

## Model

| member | source | states |
|---|---|---|
| JsString.TrimStart | src/app/services/page.tsx:36 | the result is a suffix of the input, every dropped character is white space and the result does not start with white space |
| JsString.TrimEnd | src/app/services/page.tsx:36 | the result is a prefix of the input, every dropped character is white space and the result does not end with white space |
| JsString.Trim | src/app/services/page.tsx:36 | the result is the input with a white-space-only prefix and suffix dropped (some offset `k` exists), and it neither starts nor ends with white space |
| JsString.TrimEmptyIffBlank | src/app/services/page.tsx:36-38 | trimming yields "" exactly when every character of the input is white space |
| Prompt.BuildContextText | src/app/services/page.tsx:76-84 | the `+=` loop over the documents produces `ContextText(docs)` |
| Prompt.ContextTextAppend | src/app/services/page.tsx:81-83 | the text for `a + b` is the text for `a` followed by the text for `b` |
| Prompt.ContextTextIsJoinLines | src/app/services/page.tsx:81-83 | the accumulated text equals the documents in received order, each followed by "\n" |
| Prompt.ContextTextInOrder | src/app/services/page.tsx:81-83 | document i, with its line break, comes right after documents 0..i-1 in the text, and all of that is a prefix of the whole text |
| Prompt.ContextTextEmptyIff | src/app/services/page.tsx:80-84 | the text is empty exactly when there are no documents, and it has at least one character per document |
| Prompt.RecentWindow | src/app/services/page.tsx:87-89 | the window has `min(n, 5)` entries and is the end of the stored list (original order kept); it is empty exactly when the stored list is |
| Prompt.Remember | src/app/services/page.tsx:148 | the written list is the window read, then the new response last |
| Prompt.Replay | src/app/services/page.tsx:87-154 | after one or more completions the stored list has at most 6 entries and ends with the latest response |
| Prompt.WindowTracksHistory | src/app/services/page.tsx:87-154 | if the stored list keeps the last 5 entries of the full response history, the window read is the window of the history, and after the write the list still keeps the history's last 5 entries (with the new one) |
| Prompt.ReplayTracks | src/app/services/page.tsx:87-154 | the same invariant holds after any number of completions |
| Prompt.ReplayWindow | src/app/services/page.tsx:87-154 | after N completions the window read is the last `min(N + stored, 5)` responses of everything seen, in arrival order |
| Prompt.DropNulls | src/app/services/page.tsx:114-126 | filtering out null messages keeps exactly the present messages and shortens the list only if one was missing (order: DropNullsAppend, DropNullsSingleton) |
| Prompt.DropNullsAppend | src/app/services/page.tsx:125 | filtering a concatenation is the concatenation of the filtered parts, so kept messages stay in order |
| Prompt.DropNullsSingleton | src/app/services/page.tsx:125 | a present message is kept and a null one is dropped |
| Prompt.DropNullsTriple | src/app/services/page.tsx:114-126 | `[system, user, assistant?]` filtered is `[system, user]` plus the assistant message when present, in that order |
| Prompt.BuildMessages | src/app/services/page.tsx:73-126 | the request has 3 messages when documents are present and non-empty, 2 otherwise; the system instruction depends on documents and memory; the user message is the question; the assistant message is the grounding text over the documents in order |
| Prompt.PromptShape | src/app/services/page.tsx:114-126 | length 3 exactly when documents exist, length 2 exactly when not; message 0 is the only system message, message 1 the only user message (the question unchanged), and only message 2 can be the assistant |
| Prompt.SystemPromptsDistinct | src/app/services/page.tsx:91-112 | the three instruction variants are different texts |
| Prompt.SystemVariant | src/app/services/page.tsx:89-112 | the CONTEXT variant is sent exactly when documents exist and memory is non-empty; the documents-only variant exactly when documents exist and memory is empty; the plain one exactly when no documents exist |
| Prompt.AssistantContentParts | src/app/services/page.tsx:100-104 | the assistant text starts with "CONTEXT: " exactly when the window is non-empty; it is then "CONTEXT: " + rendered window + "; " + documents part, otherwise just the documents part |
| Prompt.AssistantGrounding | src/app/services/page.tsx:91-104 | with documents, the assistant message starts with "CONTEXT: " exactly when memory is non-empty and always ends with "\nHANU documents: " and the documents in received order |
| Prompt.TuitionScenario | src/app/services/page.tsx:73-126 | the tuition question with one document and empty memory gives `[documents-only system, the question, "\nHANU documents: Tuition is payable via bank transfer.\n"]` |
| Prompt.NoDocumentsScenario | src/app/services/page.tsx:105-126 | with `relevant_docs` empty or absent, the request is `[plain system, the question]` whatever the memory |
| ServicesBot.ClearedKeyIsNotMemoryKey | src/app/services/page.tsx:45-50 | the key clear removes is not the memory key, so removing it leaves the memory read unchanged |
| ServicesBot.Page.constructor | src/app/services/page.tsx:20-24 | a new page has an empty input, only the initial greeting, the session's storage and no loading |
| ServicesBot.Page.SetInput | src/app/services/page.tsx:20 | the input field holds the typed text |
| ServicesBot.Page.Submit | src/app/services/page.tsx:34-42 | blank input: nothing changes and no retrieval starts; otherwise exactly one user entry with the question is appended, retrieval starts with that question and the input is cleared |
| ServicesBot.Page.Clear | src/app/services/page.tsx:45-50 | with at most one entry (then exactly the greeting), nothing changes; otherwise the log is exactly the cleared greeting and only `botMessage_services` is removed; the memory is the same either way |
| ServicesBot.Page.ClearIntended | src/app/services/page.tsx:45-50 | the same gating and reset, removing the memory key, so the memory is empty afterwards |
| ServicesBot.Page.OnRetrieval | src/app/services/page.tsx:52-128 | failure: no request and nothing changes; success: the request is `BuildMessages` over the memory, the quoted window is carried along, and loading is raised; the log, storage and input never change |
| ServicesBot.Page.OnCompletion | src/app/services/page.tsx:128-163 | success: memory becomes the quoted window plus the response (at most 6 entries) and one bot entry with the same payload is appended; failure: log and storage unchanged; loading is false either way |
| ServicesBot.TurnThenClear | src/app/services/page.tsx:34-50 | a fresh session, one answered question, then clear: the log is the cleared greeting and the memory is `[answer]` |
| ServicesBot.ClearKeepsMemoryScenario | src/app/services/page.tsx:45-104 | after one full turn and a clear on a fresh session, the log is the cleared greeting but the memory still holds the answer, and the next question whose retrieval finds documents gets an assistant message that opens with `CONTEXT: ` and the answer |
| ServicesBot.QuotedAfterClear | src/app/services/page.tsx:87-104 | with memory `[answer]` and documents found, the request has 3 messages and the assistant text is `CONTEXT: ` + the rendered answer + `; ` + the documents part |
| ServicesBot.ClearIntendedScenario | src/app/services/page.tsx:45-50 | the same turn with the intended clear leaves the memory empty |

`ContextText`, `JoinLines`, `JsString.IsBlank`, `JsString.StripsTo`, `HasDocs`, `SystemPrompt`, `AssistantContent`, `StoredResponses`, `Page.Memory` and the `Payloads` rendering functions are specification functions. The lemmas in the table state their properties.

## Left out

- React rendering, `ChatInterface` props, scroll-into-view, `usePathname` and the FAQ list are presentation only.
- `fetch`, request headers, URLs and the `response.ok` checks are not modelled. Each request's outcome is a parameter: `Retrieval` or `Completion`.
- Content-type sniffing and JSON (de)serialisation of session storage are not modelled. A response comes in already normalised to a `Payload`, and storage is a map from key to payload list. Storing through JSON makes `Text(s)` and `Json(JString(s))` indistinguishable on read. The model keeps the tag, and `Render` treats both the same.
- `Render` follows JavaScript's array-to-string coercion (join with ",", null as "", objects as "[object Object]"), except for numbers. JSON numbers are limited to integers and always print as plain decimals: JavaScript prints integers of magnitude 1e21 or more in exponent form, and `JSON.parse` rounds integers beyond 2^53, neither of which the model reproduces. Fractional numbers are not modelled.
- The system instructions' exact English wording is left out. Three short stand-in constants take its place. Only which variant is chosen is modelled.
- A `relevant_docs` value that is not an array of strings (a bare string would be iterated character by character) is not modelled.
- `console.log` and `console.error` are not modelled.
- Overlapping submissions are not modelled: the page has no guard against them, and concurrency is out of scope. Handlers in the model run one after another, in the order the caller chooses.

## Findings

| source | as written | input that shows it | evidently intended | confidence | as-written member | corrected member |
|---|---|---|---|---|---|---|
| src/app/services/page.tsx:48 | the clear action removes `botMessage_services` from session storage | one completed turn with answer A, then clear: the log is reset but the memory is still `[A]`, and the next question whose retrieval finds documents quotes A as CONTEXT | remove `botMessages_services`, the key read at line 87 and written at lines 148 and 154 | high; not executed | ServicesBot.ClearKeepsMemoryScenario | ServicesBot.Page.ClearIntended |
