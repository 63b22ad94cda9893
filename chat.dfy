/**
 * Shared vocabulary of the coffee-chat proxy: conversation turns as the
 * browser sends them, the JSON request body, the shape the generative
 * provider expects, and the responses a route handler can produce.
 */
module Chat {

  datatype Option<+T> = None | Some(value: T)

  /** JavaScript truthiness of an optional string: missing and "" are falsy. */
  function Truthy(s: Option<string>): (t: bool)
    ensures !t <==> (s == None || s == Some(""))
    ensures t ==> |s.value| > 0
  {
    s.Some? && s.value != ""
  }

  const UserRole: string := "user"
  const ModelRole: string := "model"

  /** One turn of a conversation, `{role, content}` on the wire. */
  datatype Message = Message(role: string, content: string)

  /** The `history` field of the request body as the JSON parser delivers it. */
  datatype History =
    | Absent               // field missing (or null)
    | NotAnArray           // present, but not an array
    | Turns(turns: seq<Message>)

  /** The parsed JSON request body `{prompt, history}`. */
  datatype RequestBody = RequestBody(prompt: Option<string>, history: History)

  /** Provider-side shapes: `{text}` and `{role, parts}`. */
  datatype Part = Part(text: string)
  datatype Content = Content(role: string, parts: seq<Part>)

  /** What a route hands to the provider's streaming generation call. */
  datatype GenerateCall = GenerateCall(systemInstruction: Option<string>, contents: seq<Content>)

  /**
   * The provider's answer stream: each chunk may or may not carry text, and
   * after the last chunk the stream either ends or throws.
   */
  datatype ChunkStream = ChunkStream(texts: seq<Option<string>>, fails: bool)

  /** Whether the generation call itself was rejected or opened a stream. */
  datatype ProviderOutcome = Rejected | Opened(stream: ChunkStream)

  /** The body stream a route writes: what was enqueued, and whether it ended in error. */
  datatype OutStream = OutStream(enqueued: seq<string>, errored: bool)

  /** What a route handler produces. */
  datatype Response =
    | JsonError(status: int, error: string)   // JSON `{error}` with an HTTP status
    | Streamed(body: OutStream)               // 200, text/plain, streamed body
    | NoResponse                              // the handler resolved to undefined

  const PromptRequired: string := "Prompt is required"

  /** A message mapped to the provider's `{role, parts: [{text: content}]}`. */
  function ToContent(m: Message): (c: Content)
  {
    Content(m.role, [Part(m.content)])
  }

  /** The order- and length-preserving map of messages to provider contents. */
  function ToContents(messages: seq<Message>): (r: seq<Content>)
    ensures |r| == |messages|
    ensures forall i :: 0 <= i < |messages| ==> r[i] == ToContent(messages[i])
  {
    if messages == [] then []
    else ToContents(messages[..|messages| - 1]) + [ToContent(messages[|messages| - 1])]
  }

  /** Mapping a concatenation is concatenating the maps. */
  lemma ToContentsAppend(xs: seq<Message>, ys: seq<Message>)
    ensures ToContents(xs + ys) == ToContents(xs) + ToContents(ys)
  {
  }

  /**
   * The history turns a route actually uses: anything that is not an array
   * counts as no history at all.
   */
  function HistoryTurns(h: History): (turns: seq<Message>)
    ensures !h.Turns? ==> turns == []
    ensures h.Turns? ==> turns == h.turns
    ensures turns != [] <==> (h.Turns? && |h.turns| > 0)
  {
    if h.Turns? then h.turns else []
  }

  /**
   * `contents` is the history mapped turn by turn, in order, followed by the
   * prompt as a user turn.
   */
  predicate ContentsFor(contents: seq<Content>, turns: seq<Message>, prompt: string)
  {
    |contents| == |turns| + 1 &&
    (forall i :: 0 <= i < |turns| ==> contents[i] == ToContent(turns[i])) &&
    contents[|turns|] == ToContent(Message(UserRole, prompt))
  }

  /** ContentsFor pins down exactly one list: the map of history plus prompt. */
  lemma ContentsForIsMap(contents: seq<Content>, turns: seq<Message>, prompt: string)
    ensures ContentsFor(contents, turns, prompt) <==>
            contents == ToContents(turns + [Message(UserRole, prompt)])
  {
  }
}
