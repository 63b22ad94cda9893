/**
 * The transcript holder of app/page.tsx (`CoffeeChatHome`): the text being
 * typed, the answer on display and the conversation so far. Sending is split
 * the way the code runs it: `SendMessage` is the synchronous part that issues
 * the request, `OnResponse` is the fetch continuation that runs once the
 * server answers, with the trimmed prompt it captured.
 */
module CoffeeChat {
  import opened Chat
  import opened JsString
  import opened Streaming

  const Greeting: string :=
    "Hello! I'm your AI coffee companion. Type a message below to start our conversation."
  const ErrorReply: string := "Sorry, there was an error. Please try again."

  /** How the fetch of the proxy ends, as the client observes it. */
  datatype FetchOutcome =
    | FetchFailed                               // fetch itself rejects
    | NotOk                                     // a non-2xx status
    | NoBody                                    // no body to read
    | Received(chunks: seq<string>, readFails: bool)  // chunks read, then done or a read error

  /** A transcript made of (user, model) pairs, in that order. */
  predicate IsPairs(h: seq<Message>)
  {
    |h| % 2 == 0 &&
    forall k :: 0 <= k < |h| ==> h[k].role == (if k % 2 == 0 then UserRole else ModelRole)
  }

  /** The only ways the transcript changes: not at all, a full reset, or one appended pair. */
  predicate HistoryStep(before: seq<Message>, after: seq<Message>)
  {
    after == before || after == [] ||
    (|after| == |before| + 2 && after[..|before|] == before &&
     after[|before|].role == UserRole && after[|before| + 1].role == ModelRole)
  }

  /** Every permitted step keeps a transcript of (user, model) pairs. */
  lemma StepKeepsPairs(before: seq<Message>, after: seq<Message>)
    requires IsPairs(before) && HistoryStep(before, after)
    ensures IsPairs(after)
  {
  }

  class CoffeeChatHome {
    var aiResponse: string
    var userInput: string
    var conversationHistory: seq<Message>

    ghost predicate Valid()
      reads this
    {
      IsPairs(conversationHistory)
    }

    /** Initial state: the greeting on display, nothing typed, no history. */
    constructor ()
      ensures Valid()
      ensures aiResponse == Greeting && userInput == "" && conversationHistory == []
    {
      aiResponse := Greeting;
      userInput := "";
      conversationHistory := [];
    }

    /** The text area's change handler. */
    method InputChange(value: string)
      modifies this`userInput
      ensures userInput == value
    {
      userInput := value;
    }

    /**
     * `handleSendMessage` up to the fetch: blank input does nothing; else the
     * request carries the trimmed input and the current history, and the
     * input box is cleared.
     */
    method SendMessage() returns (sent: Option<RequestBody>)
      requires Valid()
      modifies this`userInput
      ensures Valid()
      ensures AllSpace(old(userInput)) ==> sent == None && userInput == old(userInput)
      ensures !AllSpace(old(userInput)) ==>
                sent == Some(RequestBody(Some(Trim(old(userInput))), Turns(conversationHistory))) &&
                sent.value.prompt.value != "" && userInput == ""
      // the prompt sent has no surrounding white space left to trim
      ensures sent.Some? ==> Trim(sent.value.prompt.value) == sent.value.prompt.value
    {
      TrimBlank(userInput);
      if Trim(userInput) == "" {
        return None;
      }
      var currentUserMessage := Trim(userInput);
      TrimIdempotent(userInput);
      sent := Some(RequestBody(Some(currentUserMessage), Turns(conversationHistory)));
      userInput := "";
    }

    /**
     * The fetch continuation. On a readable body the display is cleared and
     * then shows the chunks read so far; a clean end appends exactly the
     * (user, model) pair. Any failure shows the error reply and leaves the
     * history alone. `shown` records the values the answer area takes while
     * the body is read: "" first, then one more value after each chunk.
     */
    method OnResponse(prompt: string, outcome: FetchOutcome) returns (ghost shown: seq<string>)
      requires Valid()
      modifies this`aiResponse, this`conversationHistory
      ensures Valid()
      ensures HistoryStep(old(conversationHistory), conversationHistory)
      ensures (!outcome.Received? || outcome.readFails) ==>
                aiResponse == ErrorReply && conversationHistory == old(conversationHistory)
      ensures outcome.Received? && !outcome.readFails ==>
                aiResponse == Concat(outcome.chunks) &&
                conversationHistory == old(conversationHistory) +
                  [Message(UserRole, prompt), Message(ModelRole, Concat(outcome.chunks))]
      // live typing: after k chunks the display is the first k chunks concatenated
      ensures outcome.Received? ==>
                |shown| == |outcome.chunks| + 1 &&
                forall k :: 0 <= k <= |outcome.chunks| ==> shown[k] == Concat(outcome.chunks[..k])
    {
      shown := [];
      if !outcome.Received? {
        aiResponse := ErrorReply;
        return;
      }
      var chunks := outcome.chunks;
      var accumulatedText := "";
      aiResponse := "";
      shown := [aiResponse];
      var i := 0;
      while i < |chunks|
        invariant 0 <= i <= |chunks|
        invariant accumulatedText == Concat(chunks[..i])
        invariant aiResponse == accumulatedText
        invariant |shown| == i + 1
        invariant forall k :: 0 <= k <= i ==> shown[k] == Concat(chunks[..k])
        invariant conversationHistory == old(conversationHistory)
      {
        accumulatedText := accumulatedText + chunks[i];
        assert chunks[..i + 1][..i] == chunks[..i];
        aiResponse := accumulatedText;
        shown := shown + [aiResponse];
        i := i + 1;
      }
      assert chunks[..i] == chunks;
      if outcome.readFails {
        aiResponse := ErrorReply;
        return;
      }
      var before := conversationHistory;
      conversationHistory := conversationHistory +
        [Message(UserRole, prompt), Message(ModelRole, accumulatedText)];
      StepKeepsPairs(before, conversationHistory);
    }

    /** "New chat": empty history and the greeting back on display. */
    method ClearConversation()
      requires Valid()
      modifies this`aiResponse, this`conversationHistory
      ensures Valid()
      ensures HistoryStep(old(conversationHistory), conversationHistory)
      ensures conversationHistory == [] && aiResponse == Greeting
    {
      conversationHistory := [];
      aiResponse := Greeting;
    }
  }
}
