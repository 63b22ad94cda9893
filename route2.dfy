/**
 * The POST handler of app/api/send-prompt/route2.ts: the API key is checked
 * before the prompt, the persona text is glued in front of the prompt on the
 * first turn only, and every exception becomes a 500 JSON error.
 */
module SendPromptV2 {
  import opened Chat
  import opened Streaming
  import SendPrompt

  const ApiKeyMissing: string := "API key not configured"
  const InternalError: string := "Internal server error dick"

  /** Separator between the persona text and the first prompt. */
  const PersonaSeparator: string := "\n\n"

  /**
   * The `messages` list. No history: one user message carrying the persona
   * text, a blank line and the prompt. Otherwise: the history untouched and
   * the prompt as a user message, with no persona text added.
   */
  method BuildMessages(turns: seq<Message>, prompt: string, persona: string)
    returns (messages: seq<Message>)
    ensures turns == [] ==>
              |messages| == 1 && messages[0].role == UserRole &&
              messages[0].content == persona + PersonaSeparator + prompt
    ensures turns != [] ==>
              |messages| == |turns| + 1 && messages[..|turns|] == turns &&
              messages[|turns|] == Message(UserRole, prompt)
  {
    messages := [];
    if |turns| == 0 {
      messages := messages + [Message(UserRole, persona + PersonaSeparator + prompt)];
    } else {
      messages := messages + turns;
      messages := messages + [Message(UserRole, prompt)];
    }
  }

  /**
   * The handler. `apiKey` is the configured key (None when unset), `body` is
   * None when the request body is not JSON or is `null`, `persona` is the fixed system
   * context, `provider` is how the provider answers if called. `call` is the
   * generation call made, None if none was.
   */
  method Post(apiKey: Option<string>, body: Option<RequestBody>, persona: string, provider: ProviderOutcome)
    returns (resp: Response, call: Option<GenerateCall>)
    // the key check comes first, whatever the body holds
    ensures !Truthy(apiKey) ==> resp == JsonError(500, ApiKeyMissing) && call == None
    ensures Truthy(apiKey) && body.None? ==> resp == JsonError(500, InternalError) && call == None
    ensures Truthy(apiKey) && body.Some? && !Truthy(body.value.prompt) ==>
              resp == JsonError(400, PromptRequired) && call == None
    // first turn: a single user turn with the persona text in front of the prompt
    ensures Truthy(apiKey) && body.Some? && Truthy(body.value.prompt) &&
            HistoryTurns(body.value.history) == [] ==>
              call == Some(GenerateCall(None,
                [ToContent(Message(UserRole, persona + PersonaSeparator + body.value.prompt.value))]))
    // later turns: the same contents route.ts builds, and no system instruction
    ensures Truthy(apiKey) && body.Some? && Truthy(body.value.prompt) &&
            HistoryTurns(body.value.history) != [] ==>
              call.Some? && call.value.systemInstruction == None &&
              ContentsFor(call.value.contents, HistoryTurns(body.value.history), body.value.prompt.value)
    // a rejected call is a 500; an opened one is forwarded chunk by chunk
    ensures Truthy(apiKey) && body.Some? && Truthy(body.value.prompt) && provider.Rejected? ==>
              resp == JsonError(500, InternalError)
    ensures Truthy(apiKey) && body.Some? && Truthy(body.value.prompt) && provider.Opened? ==>
              resp == Streamed(OutStream(Forwarded(provider.stream.texts), provider.stream.fails))
  {
    if !(apiKey.Some? && apiKey.value != "") {
      return JsonError(500, ApiKeyMissing), None;
    }
    if body.None? {
      return JsonError(500, InternalError), None;
    }
    var prompt := body.value.prompt;
    if !(prompt.Some? && prompt.value != "") {
      return JsonError(400, PromptRequired), None;
    }
    var turns := HistoryTurns(body.value.history);
    var messages := BuildMessages(turns, prompt.value, persona);
    if turns != [] {
      assert messages == turns + [Message(UserRole, prompt.value)];
      ContentsForIsMap(ToContents(messages), turns, prompt.value);
    } else {
      var only := Message(UserRole, persona + PersonaSeparator + prompt.value);
      assert messages == [only];
      assert ToContents(messages) == [ToContent(only)];
    }
    call := Some(GenerateCall(None, ToContents(messages)));
    match provider
    case Rejected =>
      resp := JsonError(500, InternalError);
    case Opened(stream) =>
      var out := Pump(stream);
      resp := Streamed(out);
  }

  /**
   * On a first turn the two handlers really differ: route.ts sends the bare
   * prompt and keeps the persona text aside, this one sends the persona text
   * inside the only user turn.
   */
  lemma FirstTurnDiffersFromRoute(persona: string, prompt: string)
    ensures !ContentsFor([ToContent(Message(UserRole, persona + PersonaSeparator + prompt))], [], prompt)
  {
    assert |persona + PersonaSeparator + prompt| > |prompt|;
  }

  /**
   * The same first-turn request sent to both handlers, each with its own
   * persona text: route.ts calls the provider with `persona1` as system
   * instruction and the bare prompt, this handler with no system instruction
   * and `persona2` inside the one user turn, so the two calls never carry the
   * same contents.
   */
  method FirstTurnCallsDiffer(apiKey: Option<string>, body: Option<RequestBody>,
                              persona1: string, persona2: string, provider: ProviderOutcome)
    returns (callV1: Option<GenerateCall>, callV2: Option<GenerateCall>)
    requires Truthy(apiKey) && body.Some? && Truthy(body.value.prompt)
    requires HistoryTurns(body.value.history) == []
    ensures callV1.Some? && callV2.Some?
    ensures callV1.value.systemInstruction == Some(persona1) && callV2.value.systemInstruction == None
    ensures |callV1.value.contents| == 1 && |callV2.value.contents| == 1
    ensures callV1.value.contents[0] == ToContent(Message(UserRole, body.value.prompt.value))
    ensures callV2.value.contents[0] ==
              ToContent(Message(UserRole, persona2 + PersonaSeparator + body.value.prompt.value))
    ensures callV1.value.contents != callV2.value.contents
  {
    var _, c1 := SendPrompt.Post(body, persona1, provider);
    var _, c2 := Post(apiKey, body, persona2, provider);
    FirstTurnDiffersFromRoute(persona2, body.value.prompt.value);
    callV1, callV2 := c1, c2;
  }
}
