/**
 * The POST handler of app/api/send-prompt/route.ts: the persona text travels
 * in the separate `systemInstruction` field, `contents` holds only the
 * history and the new prompt, and every exception is logged and swallowed.
 */
module SendPrompt {
  import opened Chat
  import opened Streaming

  /**
   * The `contents` loop: each history turn keeps its role and text, in
   * order, and the prompt comes last as a user turn. Anything but a
   * non-empty array of turns contributes no history.
   */
  method BuildContents(history: History, prompt: string) returns (contents: seq<Content>)
    ensures ContentsFor(contents, HistoryTurns(history), prompt)
  {
    contents := [];
    if history.Turns? && |history.turns| > 0 {
      var turns := history.turns;
      var i := 0;
      while i < |turns|
        invariant 0 <= i <= |turns|
        invariant |contents| == i
        invariant forall k :: 0 <= k < i ==> contents[k] == ToContent(turns[k])
      {
        contents := contents + [Content(turns[i].role, [Part(turns[i].content)])];
        i := i + 1;
      }
    }
    contents := contents + [Content(UserRole, [Part(prompt)])];
  }

  /**
   * The handler. `body` is None when the request body is not JSON or is `null`; `persona`
   * is the fixed system instruction; `provider` is how the provider answers
   * if it is called. `call` is the generation call made, None if none was.
   */
  method Post(body: Option<RequestBody>, persona: string, provider: ProviderOutcome)
    returns (resp: Response, call: Option<GenerateCall>)
    // a body that cannot be parsed is caught and logged: no response at all
    ensures body.None? ==> resp == NoResponse && call == None
    // a falsy prompt is refused before the provider is called
    ensures body.Some? && !Truthy(body.value.prompt) ==>
              resp == JsonError(400, PromptRequired) && call == None
    // otherwise exactly one call: persona aside, history then prompt in contents
    ensures body.Some? && Truthy(body.value.prompt) ==>
              call.Some? && call.value.systemInstruction == Some(persona) &&
              ContentsFor(call.value.contents, HistoryTurns(body.value.history), body.value.prompt.value)
    // a rejected call is swallowed; an opened one is forwarded chunk by chunk
    ensures body.Some? && Truthy(body.value.prompt) && provider.Rejected? ==> resp == NoResponse
    ensures body.Some? && Truthy(body.value.prompt) && provider.Opened? ==>
              resp == Streamed(OutStream(Forwarded(provider.stream.texts), provider.stream.fails))
  {
    if body.None? {
      return NoResponse, None;
    }
    var prompt := body.value.prompt;
    if !(prompt.Some? && prompt.value != "") {
      return JsonError(400, PromptRequired), None;
    }
    var contents := BuildContents(body.value.history, prompt.value);
    call := Some(GenerateCall(Some(persona), contents));
    match provider
    case Rejected =>
      resp := NoResponse;
    case Opened(stream) =>
      var out := Pump(stream);
      resp := Streamed(out);
  }
}
