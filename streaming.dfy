/**
 * Forwarding the provider's answer stream to the HTTP response body. Both
 * route handlers run the same loop: every chunk whose text is truthy is
 * enqueued, the body is closed when the provider stream ends and put in an
 * error state when it throws.
 */
module Streaming {
  import opened Chat

  /** The text of a chunk, with a chunk that carries none counting as "". */
  function TextOf(t: Option<string>): (s: string)
  {
    if t.Some? then t.value else ""
  }

  /** The chunks that get enqueued: the non-empty texts, in stream order. */
  function Forwarded(texts: seq<Option<string>>): (r: seq<string>)
    ensures |r| <= |texts|
    ensures forall k :: 0 <= k < |r| ==> r[k] != ""
  {
    if texts == [] then []
    else
      var last := texts[|texts| - 1];
      Forwarded(texts[..|texts| - 1]) + (if Truthy(last) then [last.value] else [])
  }

  /** Concatenation of text fragments, in order. */
  function Concat(parts: seq<string>): (s: string)
  {
    if parts == [] then "" else Concat(parts[..|parts| - 1]) + parts[|parts| - 1]
  }

  /** The whole answer the provider produced: every chunk's text, in order. */
  function FullText(texts: seq<Option<string>>): (s: string)
  {
    if texts == [] then "" else FullText(texts[..|texts| - 1]) + TextOf(texts[|texts| - 1])
  }

  /** Forwarding distributes over splitting the stream: nothing is reordered or duplicated. */
  lemma {:induction false} ForwardedAppend(xs: seq<Option<string>>, ys: seq<Option<string>>)
    ensures Forwarded(xs + ys) == Forwarded(xs) + Forwarded(ys)
  {
    if ys == [] {
      assert xs + ys == xs;
    } else {
      var zs := xs + ys;
      assert zs[..|zs| - 1] == xs + ys[..|ys| - 1];
      ForwardedAppend(xs, ys[..|ys| - 1]);
    }
  }

  /** A single chunk is forwarded exactly when its text is non-empty. */
  lemma ForwardedSingle(t: Option<string>)
    ensures Forwarded([t]) == if t.Some? && t.value != "" then [t.value] else []
  {
  }

  lemma {:induction false} ConcatAppend(xs: seq<string>, ys: seq<string>)
    ensures Concat(xs + ys) == Concat(xs) + Concat(ys)
  {
    if ys == [] {
      assert xs + ys == xs;
    } else {
      var zs := xs + ys;
      assert zs[..|zs| - 1] == xs + ys[..|ys| - 1];
      ConcatAppend(xs, ys[..|ys| - 1]);
    }
  }

  /**
   * Dropping the empty chunks loses no text: the forwarded fragments
   * concatenate to the provider's full answer.
   */
  lemma {:induction false} ForwardingKeepsText(texts: seq<Option<string>>)
    ensures Concat(Forwarded(texts)) == FullText(texts)
  {
    if texts != [] {
      var init, last := texts[..|texts| - 1], texts[|texts| - 1];
      ForwardingKeepsText(init);
      var tail := if Truthy(last) then [last.value] else [];
      ConcatAppend(Forwarded(init), tail);
      if Truthy(last) {
        assert tail[..0] == [];
      }
    }
  }

  /**
   * The `for await` loop of the stream's start callback: enqueue each truthy
   * chunk text, then close the body, or error it if the provider throws.
   */
  method Pump(stream: ChunkStream) returns (out: OutStream)
    ensures out.enqueued == Forwarded(stream.texts)
    ensures out.errored == stream.fails
  {
    var enqueued: seq<string> := [];
    var i := 0;
    while i < |stream.texts|
      invariant 0 <= i <= |stream.texts|
      invariant enqueued == Forwarded(stream.texts[..i])
    {
      var text := stream.texts[i];
      if text.Some? && text.value != "" {
        enqueued := enqueued + [text.value];
      }
      assert stream.texts[..i + 1][..i] == stream.texts[..i];
      i := i + 1;
    }
    assert stream.texts[..i] == stream.texts;
    out := OutStream(enqueued, stream.fails);
  }
}
