/** The OpenAI-compatible streaming paths: the provider's stream is a finite
    sequence of chunks, and the callback's calls are recorded as a trace.
 */
module Streaming {
  import opened Results
  import opened Registry
  import opened Messages
  import opened Params
  import opened Fragments

  /** `choices[i].delta`; `content` is `None` when the chunk carries no text. */
  datatype Delta = Delta(content: Option<string>)
  datatype Choice = Choice(delta: Option<Delta>)
  datatype Chunk = Chunk(choices: seq<Choice>)

  /** How a provider stream ends: normally, or by raising with a cause
      (a failing `create` is a stream that breaks before its first chunk). */
  datatype StreamEnd = Finished | BrokeOff(cause: string)

  /** The chunks a provider stream delivered, and how it ended. */
  datatype ChunkStream = ChunkStream(chunks: seq<Chunk>, end: StreamEnd)

  /** A request as handed to the client: the endpoint override and the parameters. */
  datatype ChatRequest = ChatRequest(baseUrl: Option<string>, params: ChatParams)

  /** What one streaming call yields: the request sent, the text returned
      (or the failure raised) and the fragments handed to the callback, in call order. */
  datatype Streamed = Streamed(request: ChatRequest, result: Result<string>, callbacks: seq<string>)

  /** The text a chunk contributes: the first choice's delta content when the
      chunk has a choice, that choice has a delta and the content is non-empty. */
  function Contribution(c: Chunk): Option<string>
  {
    if |c.choices| > 0 && c.choices[0].delta.Some?
       && c.choices[0].delta.value.content.Some? && c.choices[0].delta.value.content.value != ""
    then Some(c.choices[0].delta.value.content.value)
    else None
  }

  /** The contributions of `chunks`, in stream order. */
  function Contributions(chunks: seq<Chunk>): (fs: seq<string>)
    ensures |fs| <= |chunks|
    ensures forall i :: 0 <= i < |fs| ==> fs[i] != ""
  {
    if |chunks| == 0 then []
    else
      match Contribution(chunks[0])
      case Some(f) => [f] + Contributions(chunks[1..])
      case None => Contributions(chunks[1..])
  }

  /** The contributions of a split stream are those of its halves, in order. */
  lemma {:induction false} ContributionsAppend(a: seq<Chunk>, b: seq<Chunk>)
    ensures Contributions(a + b) == Contributions(a) + Contributions(b)
  {
    if |a| == 0 {
      assert a + b == b;
    } else {
      assert (a + b)[1..] == a[1..] + b;
      ContributionsAppend(a[1..], b);
    }
  }

  /** A chunk without choices, delta or text changes nothing wherever it appears. */
  lemma SilentChunk(before: seq<Chunk>, c: Chunk, after: seq<Chunk>)
    requires Contribution(c) == None
    ensures Contributions(before + [c] + after) == Contributions(before + after)
  {
    ContributionsAppend(before + [c], after);
    ContributionsAppend(before, [c]);
    ContributionsAppend(before, after);
    assert Contributions([c]) == [];
  }

  /** A fragment is in the output exactly when some chunk contributes it. */
  lemma {:induction false} ContributionsFromChunks(chunks: seq<Chunk>, f: string)
    ensures f in Contributions(chunks) <==> exists i :: 0 <= i < |chunks| && Contribution(chunks[i]) == Some(f)
  {
    if |chunks| > 0 {
      ContributionsFromChunks(chunks[1..], f);
      if f in Contributions(chunks[1..]) {
        var i :| 0 <= i < |chunks[1..]| && Contribution(chunks[1..][i]) == Some(f);
        assert Contribution(chunks[i + 1]) == Some(f);
      }
      if exists i :: 0 <= i < |chunks| && Contribution(chunks[i]) == Some(f) {
        var i :| 0 <= i < |chunks| && Contribution(chunks[i]) == Some(f);
        if i > 0 {
          assert Contribution(chunks[1..][i - 1]) == Some(f);
        }
      }
    }
  }

  /** The accumulation loop shared by both paths: `full_response += content`
      and one callback per contributing chunk. */
  method Accumulate(chunks: seq<Chunk>) returns (full: string, callbacks: seq<string>)
    ensures callbacks == Contributions(chunks)
    ensures full == Concat(callbacks)
  {
    full := "";
    callbacks := [];
    var i := 0;
    while i < |chunks|
      invariant 0 <= i <= |chunks|
      invariant callbacks == Contributions(chunks[..i])
      invariant full == Concat(callbacks)
    {
      ContributionsAppend(chunks[..i], [chunks[i]]);
      assert chunks[..i + 1] == chunks[..i] + [chunks[i]];
      var c := chunks[i];
      if |c.choices| > 0 && c.choices[0].delta.Some?
         && c.choices[0].delta.value.content.Some? && c.choices[0].delta.value.content.value != ""
      {
        var content := c.choices[0].delta.value.content.value;
        ConcatSnoc(callbacks, content);
        full := full + content;
        callbacks := callbacks + [content];
      }
      i := i + 1;
    }
    assert chunks[..i] == chunks;
  }

  /** Accumulates a stream to its end: the fragments delivered before a break
      stay delivered, and a break replaces the returned text by the failure. */
  method Consume(stream: ChunkStream) returns (result: Result<string>, callbacks: seq<string>)
    ensures callbacks == Contributions(stream.chunks)
    ensures stream.end == Finished ==> result == Ok(Concat(callbacks))
    ensures stream.end.BrokeOff? ==> result == Err(Transport(stream.end.cause))
  {
    var full;
    full, callbacks := Accumulate(stream.chunks);
    match stream.end
    case Finished => result := Ok(full);
    case BrokeOff(cause) => result := Err(Transport(cause));
  }

  /** `stream_openai_response`: the request carries the caller's endpoint and
      the per-model parameters; the returned text is the in-order
      concatenation of the contributing chunks, each passed to the callback once. */
  method StreamOpenAI(messages: seq<Message>, baseUrl: Option<string>, model: Llm, stream: ChunkStream)
    returns (out: Streamed)
    ensures out.request == ChatRequest(baseUrl, OpenAIParams(model, messages))
    ensures out.callbacks == Contributions(stream.chunks)
    ensures stream.end == Finished ==> out.result == Ok(Concat(out.callbacks))
    ensures stream.end.BrokeOff? ==> out.result == Err(Transport(stream.end.cause))
  {
    var params := OpenAIParams(model, messages);
    var result, callbacks := Consume(stream);
    out := Streamed(ChatRequest(baseUrl, params), result, callbacks);
  }

  /** `generate_gemini_response_openai_compatible`: the same accumulation
      against Google's OpenAI-compatible endpoint with the Gemini parameters. */
  method GeminiOpenAICompatible(messages: seq<Message>, model: Llm, stream: ChunkStream)
    returns (out: Streamed)
    ensures out.request == ChatRequest(Some(GeminiBaseUrl), GeminiParams(model, messages))
    ensures out.callbacks == Contributions(stream.chunks)
    ensures stream.end == Finished ==> out.result == Ok(Concat(out.callbacks))
    ensures stream.end.BrokeOff? ==> out.result == Err(Transport(stream.end.cause))
  {
    var params := GeminiParams(model, messages);
    var result, callbacks := Consume(stream);
    out := Streamed(ChatRequest(Some(GeminiBaseUrl), params), result, callbacks);
  }

  /** The backends `stream_gemini_response` can dispatch to; the choice is a constant. */
  datatype GeminiApi = OpenAICompatible | GoogleGenerativeAI

  const GeminiApiType: GeminiApi := OpenAICompatible

  /** `stream_gemini_response`: always the OpenAI-compatible backend. */
  method StreamGemini(messages: seq<Message>, model: Llm, stream: ChunkStream)
    returns (out: Streamed)
    ensures out.request.baseUrl == Some(GeminiBaseUrl)
    ensures out.request.params == GeminiParams(model, messages)
    ensures out.callbacks == Contributions(stream.chunks)
    ensures stream.end == Finished ==> out.result == Ok(Concat(out.callbacks))
    ensures stream.end.BrokeOff? ==> out.result == Err(Transport(stream.end.cause))
  {
    match GeminiApiType
    case OpenAICompatible =>
      out := GeminiOpenAICompatible(messages, model, stream);
  }
}
