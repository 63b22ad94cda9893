# coffee-chat: a Dafny model of the chat proxy and the transcript holder

coffee-chat is a small web front end for practising "coffee chat"
conversations with a generative model. The browser keeps a transcript of
(user, model) turns and posts each new prompt to a proxy route. The proxy
hands the conversation to the Gemini streaming API and relays the answer
chunks back as they come in. This project models that logic in Dafny:

- `chat.dfy` (module `Chat`) holds the shared data: turns, the JSON request
  body, the provider's `{role, parts:[{text}]}` contents, the provider's
  chunk stream and the responses a handler can produce. It also holds the
  history normalisation and the message-to-contents map.
- `text.dfy` (module `JsString`) models JavaScript's `String.prototype.trim`,
  which the client uses to ignore blank input.
- `streaming.dfy` (module `Streaming`) models the chunk-forwarding loop that
  both routes share, as `Pump`. It is proved against `Forwarded`, the
  non-empty chunk texts in stream order.
- `route.dfy` (module `SendPrompt`) models `app/api/send-prompt/route.ts`.
  The persona text goes in `systemInstruction`, `contents` is built by a loop,
  and every exception is swallowed.
- `route2.dfy` (module `SendPromptV2`) models `app/api/send-prompt/route2.ts`.
  The API key is checked first, the persona text is prefixed to the first
  prompt only, and exceptions become a 500 response. The two routes are kept
  as two separate handlers. Where they agree and where they differ is proved.
- `page.dfy` (module `CoffeeChat`) models the state of `CoffeeChatHome` in
  `app/page.tsx` as a class with the fields `aiResponse`, `userInput` and
  `conversationHistory`. Its invariant is that the transcript is a sequence of
  (user, model) pairs.

Inputs from outside the code are parameters of the model:
- The API key is an `Option<string>`.
- The request body is an `Option<RequestBody>`, where `None` means the body
  is not JSON or is the JSON value `null` (both throw before the prompt is
  read). History elements are always `{role, content}` objects.
- The persona text is an opaque `persona: string`.
- The provider is a `ProviderOutcome`. Either the call is rejected, or it
  opens a finite stream of optional chunk texts that ends normally or throws.
- On the client, the result of a fetch is a `FetchOutcome`.

Each handler returns the `GenerateCall` it made, or `None` when it made no
call, so a `None` call means the provider was never called.

Two behaviours of the code worth noting:
- route.ts produces no error response when the provider call fails before
  streaming. Its `catch` only logs, and the handler returns nothing
  (`NoResponse`).
- The client does not clear the answer area at the moment of sending. It
  clears it only once an ok response with a readable body has arrived.

## Model

| member | source | states |
|---|---|---|
| `Chat.Truthy` | app/api/send-prompt/route2.ts:13-76 | JavaScript truthiness as the `!apiKey` (route2.ts:13), `!prompt` (route2.ts:23, route.ts:15) and `if (text)` (route2.ts:76, route.ts:82) tests use it: of the modelled values, exactly a missing string and "" are falsy |
| `Chat.HistoryTurns` | app/api/send-prompt/route2.ts:49 | a history that is not an array counts as empty, an array is used as it is; the result is non-empty exactly when route.ts's guard at route.ts:55 holds |
| `Chat.ToContents` | app/api/send-prompt/route2.ts:64 | the provider contents are an order- and length-preserving map of the messages to `{role, parts:[{text: content}]}` |
| `Chat.ToContentsAppend` | app/api/send-prompt/route2.ts:64 | mapping a concatenation of message lists is the concatenation of the mapped lists |
| `Chat.ContentsForIsMap` | app/api/send-prompt/route.ts:52-68 | "history turns mapped in order, then the prompt as a user turn" describes exactly one contents list: the map of history plus the prompt turn |
| `JsString.Trim` | app/page.tsx:28-30 | the trimmed input is a contiguous piece of the input with only white space cut from either end, and it neither starts nor ends with white space |
| `JsString.TrimBlank` | app/page.tsx:28 | input trims to the empty string exactly when it is white space only |
| `JsString.TrimIdempotent` | app/page.tsx:28-30 | a general property of `String.prototype.trim`, for every string: trimming twice is trimming once; it gives `SendMessage` its promise that the prompt sent has nothing left to trim |
| `Streaming.Forwarded` | app/api/send-prompt/route.ts:80-83 | only non-empty chunk texts are forwarded, never more than the chunks received |
| `Streaming.ForwardedAppend` | app/api/send-prompt/route.ts:80-83 | forwarding distributes over splitting the stream, so nothing is reordered or duplicated |
| `Streaming.ForwardedSingle` | app/api/send-prompt/route2.ts:75-76 | one chunk is forwarded exactly when its text is present and non-empty |
| `Streaming.ForwardingKeepsText` | app/api/send-prompt/route.ts:80-84 | the forwarded fragments concatenate to the provider's whole answer, so dropping empty chunks loses no text |
| `Streaming.Pump` | app/api/send-prompt/route.ts:78-88 | the body stream receives exactly the forwarded texts in order, and ends in an error state exactly when the provider stream throws |
| `SendPrompt.BuildContents` | app/api/send-prompt/route.ts:52-68 | with a non-empty history array of N turns, contents has N+1 entries, the history turns in order with role and text kept, then the user prompt; any other history gives only the prompt turn |
| `SendPrompt.Post` | app/api/send-prompt/route.ts:8-101 | an unparsable body or a rejected call gives no response; a falsy prompt gives 400 "Prompt is required" with no call; otherwise one call with the persona in `systemInstruction` and history plus prompt in contents, and the response streams the forwarded chunks |
| `SendPromptV2.BuildMessages` | app/api/send-prompt/route2.ts:50-58 | empty history gives a single user message `persona + "\n\n" + prompt`; N > 0 turns give the history unchanged followed by the prompt as a user message (N+1 messages, no persona) |
| `SendPromptV2.Post` | app/api/send-prompt/route2.ts:8-99 | a missing key gives 500 "API key not configured" before anything else is looked at; an unparsable body or a rejected call gives a 500 JSON error; a falsy prompt gives 400 with no call; after the first turn the contents are exactly those route.ts sends, with no system instruction; the response streams the forwarded chunks |
| `SendPromptV2.FirstTurnDiffersFromRoute` | app/api/send-prompt/route2.ts:53-54 | on a first turn the contents differ from what route.ts sends, because the persona text sits inside the prompt turn |
| `SendPromptV2.FirstTurnCallsDiffer` | app/api/send-prompt/route2.ts:53-65 | for the same first-turn request, route.ts calls the provider with route.ts's persona as system instruction and the bare prompt as its one turn, route2.ts with no system instruction and route2.ts's persona + "\n\n" + prompt as its one turn; the two contents always differ, whatever the two persona texts are |
| `CoffeeChat.StepKeepsPairs` | app/page.tsx:65-69 | appending a (user, model) pair or resetting keeps the transcript a sequence of (user, model) pairs |
| `CoffeeChat.CoffeeChatHome.constructor` | app/page.tsx:15-19 | initially the greeting is displayed, the input is empty and there is no history |
| `CoffeeChat.CoffeeChatHome.InputChange` | app/page.tsx:86-88 | typing replaces the input text |
| `CoffeeChat.CoffeeChatHome.SendMessage` | app/page.tsx:27-42 | blank input sends nothing and changes nothing; otherwise the request carries the trimmed, non-empty input (which trimming again leaves unchanged) and the current history unchanged, and the input is cleared |
| `CoffeeChat.CoffeeChatHome.OnResponse` | app/page.tsx:44-74 | a failed fetch, a non-ok status, a missing body or a read error shows the fixed error reply and keeps the history; a clean end shows the concatenated chunks and appends exactly the (user prompt, model answer) pair; the recorded display values are "" and then, after each chunk k, the concatenation of the first k chunks |
| `CoffeeChat.CoffeeChatHome.ClearConversation` | app/page.tsx:90-93 | "New chat" empties the history and restores the initial greeting |

## Left out

- The Gemini client, its constructor, the model names ("gemini-2.5-flash" and "gemini-2.0-flash"), the thinking budget and the response MIME type. These are foreign library calls and configuration. The provider is a `ProviderOutcome` parameter.
- Where inside the stream a provider failure happens: a mid-stream failure is modelled as a throw after the chunks already delivered.
- Reading the environment variable. The API key is a parameter, and route.ts does not check it at all.
- Request and response objects, HTTP headers, and `TextEncoder`/`TextDecoder`. Chunks are strings, and the client's per-chunk decoding of bytes is not modelled.
- A route that resolves to no response is shown as `NoResponse`. What the web framework then sends to the browser is not part of this model.
- JSON values that are not strings: a prompt, role or content of another JSON type is not modelled. `null` is treated as a missing field.
- The contents of the persona texts. They are opaque parameters.
- Async scheduling. A fetch continuation is `OnResponse`, run whenever the caller chooses. The interleaving of a continuation with later sends or resets is left to the caller's order of calls. The history it extends is the one current at that time, as in the source's functional state update.
- Logging (`console.log`/`console.error`), React rendering, the text-area auto-resize effect, the Enter-key handler, the "New Chat" button's visibility condition and the API-key input field. The field's value is sent in the request body, but no route reads it.
- app/layout.tsx, which is markup and metadata only.
- History elements that are not `{role, content}` objects with string fields. A `null` history element throws while contents are built: route.ts then gives no response, route2.ts a 500. Any other element without a string `role` or `content` (`5`, `"x"`, `{}`, `{"role": "user"}`) reaches the provider call with undefined fields. Neither case is modelled.
