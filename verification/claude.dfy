/** The Claude path of the adapter: translating an OpenAI-shaped
    conversation into a system prompt plus Claude messages, and the
    single-pass `stream_claude_response` built on it.
 */
module Claude {
  import opened Results
  import opened Registry
  import opened Messages
  import opened Params

  /** What the image re-encoder makes of a data URL: its media type and
      base64 payload, or the cause it raised with. */
  datatype ImageEncoding = Encoded(mediaType: string, data: string) | EncodingFailed(cause: string)

  /** The image re-encoder `process_image`. Its resizing and compression are
      outside this model. */
  type ImageProcessor = string -> ImageEncoding

  /** The failures translation can raise. */
  predicate TranslationError(e: LlmError)
  {
    e == MalformedImagePart || e.ImageProcessing?
  }

  const ClaudeMaxTokens: nat := 8192
  const BetaHeaders: map<string, string> := map["anthropic-beta" := "max-tokens-3-5-sonnet-2024-07-15"]

  /** The keyword arguments of `messages.stream`. */
  datatype ClaudeRequest = ClaudeRequest(
    model: string,
    maxTokens: nat,
    temperature: Float,
    system: Content,
    messages: seq<Message>,
    extraHeaders: map<string, string>)

  /** A block of the provider's final message; only text blocks carry `.text`. */
  datatype Block = TextBlock(text: string) | OtherBlock(kind: string)
  datatype Usage = Usage(inputTokens: nat, outputTokens: nat)
  datatype FinalMessage = FinalMessage(content: seq<Block>, usage: Usage)

  /** One provider stream: the text increments it delivered, then either the
      final message or the cause it broke off with. */
  datatype StreamOutcome =
    | Completed(texts: seq<string>, final: FinalMessage)
    | Broken(texts: seq<string>, cause: string)

  /** `response.content[0].text`. */
  function FinalText(f: FinalMessage): (r: Result<string>)
    ensures r.Ok? <==> |f.content| > 0 && f.content[0].TextBlock?
    ensures r.Ok? ==> r.value == f.content[0].text
    ensures r.Err? ==> r.error == NoTextBlock
  {
    if |f.content| > 0 && f.content[0].TextBlock? then Ok(f.content[0].text) else Err(NoTextBlock)
  }

  /** The text a stream ends with, or why it produced none. */
  function OutcomeText(o: StreamOutcome): Result<string>
  {
    match o
    case Broken(_, cause) => Err(Transport(cause))
    case Completed(_, f) => FinalText(f)
  }

  /** The URL of an `image_url` part, when it has one. */
  function ImageUrlOf(p: Part): Option<string>
  {
    if "image_url" in p.fields && p.fields["image_url"].Dict? && "url" in p.fields["image_url"].entries
    then Some(p.fields["image_url"].entries["url"])
    else None
  }

  /** Rewrites one content part: an `image_url` part becomes an `image` part
      whose `source` is the base64 block of the processed URL. */
  function TranslatePart(p: Part, process: ImageProcessor): (r: Result<Part>)
    ensures p.kind != ImageUrlKind ==> r == Ok(p)
    ensures p.kind == ImageUrlKind ==>
              (r.Ok? <==> ImageUrlOf(p).Some? && process(ImageUrlOf(p).value).Encoded?)
    ensures p.kind == ImageUrlKind && ImageUrlOf(p).None? ==> r == Err(MalformedImagePart)
    ensures p.kind == ImageUrlKind && ImageUrlOf(p).Some? && process(ImageUrlOf(p).value).EncodingFailed? ==>
              r == Err(ImageProcessing(process(ImageUrlOf(p).value).cause))
    ensures r.Err? ==> TranslationError(r.error)
    ensures p.kind == ImageUrlKind && r.Ok? ==>
              && r.value.kind == ImageKind
              && "image_url" !in r.value.fields
              && "source" in r.value.fields
              && r.value.fields["source"] == Base64Source(process(ImageUrlOf(p).value).mediaType, process(ImageUrlOf(p).value).data)
              && r.value.fields.Keys == p.fields.Keys - {"image_url"} + {"source"}
              && forall k :: k in p.fields && k != "image_url" && k != "source" ==> r.value.fields[k] == p.fields[k]
    ensures WellFormedPart(p) && r.Ok? ==> WellFormedPart(r.value)
  {
    if p.kind != ImageUrlKind then Ok(p)
    else
      match ImageUrlOf(p)
      case None => Err(MalformedImagePart)
      case Some(url) =>
        match process(url)
        case EncodingFailed(cause) => Err(ImageProcessing(cause))
        case Encoded(mediaType, data) =>
          Ok(Part(ImageKind, (p.fields - {"image_url"})["source" := Base64Source(mediaType, data)]))
  }

  /** Rewrites every part of a list in order; the first image part that fails fails the list. */
  function TranslateParts(ps: seq<Part>, process: ImageProcessor): (r: Result<seq<Part>>)
    ensures r.Ok? <==> forall i :: 0 <= i < |ps| ==> TranslatePart(ps[i], process).Ok?
    ensures r.Ok? ==> |r.value| == |ps|
    ensures r.Ok? ==> forall i :: 0 <= i < |ps| ==> Ok(r.value[i]) == TranslatePart(ps[i], process)
    ensures r.Err? ==> TranslationError(r.error)
    ensures r.Err? ==> exists i :: 0 <= i < |ps| && TranslatePart(ps[i], process) == Err(r.error)
                                 && forall k :: 0 <= k < i ==> TranslatePart(ps[k], process).Ok?
  {
    if |ps| == 0 then Ok([])
    else
      var head :- TranslatePart(ps[0], process);
      var tail :- TranslateParts(ps[1..], process);
      Ok([head] + tail)
  }

  /** Rewrites one turn: list content is translated part by part, any other content is kept. */
  function TranslateMessage(m: Message, process: ImageProcessor): (r: Result<Message>)
    ensures !m.content.Parts? ==> r == Ok(m)
    ensures r.Ok? ==> r.value.role == m.role && r.value.extra == m.extra
    ensures WellFormedMessage(m) && r.Ok? ==> WellFormedMessage(r.value)
    ensures r.Err? ==> TranslationError(r.error)
    ensures m.content.Parts? ==>
              match TranslateParts(m.content.parts, process)
              case Ok(ps) => r == Ok(Message(m.role, Parts(ps), m.extra))
              case Err(e) => r == Err(e)
  {
    match m.content
    case Parts(ps) =>
      var translated :- TranslateParts(ps, process);
      Ok(Message(m.role, Parts(translated), m.extra))
    case _ => Ok(m)
  }

  /** Rewrites a list of turns element by element. */
  function TranslateMessages(ms: seq<Message>, process: ImageProcessor): (r: Result<seq<Message>>)
    ensures r.Ok? <==> forall i :: 0 <= i < |ms| ==> TranslateMessage(ms[i], process).Ok?
    ensures r.Ok? ==> |r.value| == |ms|
    ensures r.Ok? ==> forall i :: 0 <= i < |ms| ==> Ok(r.value[i]) == TranslateMessage(ms[i], process)
    ensures r.Err? ==> TranslationError(r.error)
    ensures r.Err? ==> exists i :: 0 <= i < |ms| && TranslateMessage(ms[i], process) == Err(r.error)
                                 && forall k :: 0 <= k < i ==> TranslateMessage(ms[k], process).Ok?
  {
    if |ms| == 0 then Ok([])
    else
      var head :- TranslateMessage(ms[0], process);
      var tail :- TranslateMessages(ms[1..], process);
      Ok([head] + tail)
  }

  /** No part of the turns is still in the OpenAI image shape. */
  predicate NoImageUrlParts(ms: seq<Message>)
  {
    forall i, j :: 0 <= i < |ms| && ms[i].content.Parts? && 0 <= j < |ms[i].content.parts| ==>
      ms[i].content.parts[j].kind != ImageUrlKind
  }

  /** The translated conversation: a system prompt and the remaining turns. */
  datatype ClaudeInput = ClaudeInput(system: Content, messages: seq<Message>)

  /** The translation in `stream_claude_response`: the first turn's content
      becomes the system prompt (its role is not checked), every later turn is
      rewritten. The caller's conversation is a value and stays as it was. */
  function ToClaude(messages: seq<Message>, process: ImageProcessor): (r: Result<ClaudeInput>)
    ensures |messages| == 0 ==> r == Err(EmptyConversation)
    ensures |messages| > 0 && r.Err? ==> TranslationError(r.error)
    ensures |messages| > 0 && r.Err? ==>
              exists i :: 1 <= i < |messages| && TranslateMessage(messages[i], process) == Err(r.error)
                          && forall k :: 1 <= k < i ==> TranslateMessage(messages[k], process).Ok?
    ensures |messages| > 0 ==>
              (r.Ok? <==> forall i :: 1 <= i < |messages| ==> TranslateMessage(messages[i], process).Ok?)
    ensures r.Ok? ==> r.value.system == messages[0].content
    ensures r.Ok? ==> |r.value.messages| == |messages| - 1
    ensures r.Ok? ==> forall i :: 0 <= i < |r.value.messages| ==>
              Ok(r.value.messages[i]) == TranslateMessage(messages[i + 1], process)
    ensures r.Ok? ==> NoImageUrlParts(r.value.messages)
  {
    if |messages| == 0 then Err(EmptyConversation)
    else
      var rest :- TranslateMessages(messages[1..], process);
      Ok(ClaudeInput(messages[0].content, rest))
  }

  /** A translated turn translates to itself. */
  lemma TranslateMessageIdempotent(m: Message, process: ImageProcessor)
    requires TranslateMessage(m, process).Ok?
    ensures TranslateMessage(TranslateMessage(m, process).value, process) == TranslateMessage(m, process)
  {
    var out := TranslateMessage(m, process).value;
    if out.content.Parts? {
      var ps := out.content.parts;
      forall j | 0 <= j < |ps|
        ensures TranslatePart(ps[j], process) == Ok(ps[j])
      {
        assert Ok(ps[j]) == TranslatePart(m.content.parts[j], process);
      }
      var again := TranslateParts(ps, process);
      assert again.Ok?;
      assert again.value == ps;
    }
  }

  /** Translating an already translated list changes nothing. */
  lemma TranslateIdempotent(ms: seq<Message>, process: ImageProcessor)
    requires TranslateMessages(ms, process).Ok?
    ensures TranslateMessages(TranslateMessages(ms, process).value, process) == TranslateMessages(ms, process)
  {
    var out := TranslateMessages(ms, process).value;
    forall i | 0 <= i < |out|
      ensures TranslateMessage(out[i], process) == Ok(out[i])
    {
      assert Ok(out[i]) == TranslateMessage(ms[i], process);
      TranslateMessageIdempotent(ms[i], process);
    }
    var again := TranslateMessages(out, process);
    assert again.Ok?;
    assert again.value == out;
  }

  /** The two OpenAI part shapes: an image part is rewritten into a base64
      image part carrying only its source, a text part is kept as it is. */
  lemma TranslateExamples(url: string, text: string, process: ImageProcessor)
    ensures process(url).Encoded? ==>
              TranslatePart(ImageUrlPart(url), process)
              == Ok(Part(ImageKind, map["source" := Base64Source(process(url).mediaType, process(url).data)]))
    ensures process(url).EncodingFailed? ==>
              TranslatePart(ImageUrlPart(url), process) == Err(ImageProcessing(process(url).cause))
    ensures TranslatePart(TextPart(text), process) == Ok(TextPart(text))
  {
  }

  /** Everything `stream_claude_response` is observed to do. */
  datatype ClaudeCall = ClaudeCall(request: Option<ClaudeRequest>, callbacks: seq<string>, result: Result<string>)

  /** `stream_claude_response`: translate, open one stream with the fixed
      8192-token ceiling, temperature zero and the beta header, pass every text
      increment to the callback, and return the final message's first text. */
  function StreamClaude(messages: seq<Message>, process: ImageProcessor, model: Llm, outcome: StreamOutcome)
    : (c: ClaudeCall)
    ensures ToClaude(messages, process).Err? ==>
              c.request == None && c.callbacks == [] && c.result == Err(ToClaude(messages, process).error)
    ensures ToClaude(messages, process).Ok? ==>
              && c.request.Some?
              && c.request.value.model == Value(model)
              && c.request.value.maxTokens == 8192
              && c.request.value.temperature == ZeroTemperature
              && c.request.value.extraHeaders == BetaHeaders
              && c.request.value.system == messages[0].content
              && c.request.value.messages == ToClaude(messages, process).value.messages
              && |c.request.value.messages| == |messages| - 1
              && NoImageUrlParts(c.request.value.messages)
              && c.callbacks == outcome.texts
    ensures ToClaude(messages, process).Ok? && outcome.Broken? ==> c.result == Err(Transport(outcome.cause))
    ensures ToClaude(messages, process).Ok? && outcome.Completed? ==> c.result == FinalText(outcome.final)
    ensures c.result.Ok? <==> ToClaude(messages, process).Ok? && outcome.Completed? && FinalText(outcome.final).Ok?
    ensures c.result.Ok? ==> c.result.value == outcome.final.content[0].text
  {
    match ToClaude(messages, process)
    case Err(e) => ClaudeCall(None, [], Err(e))
    case Ok(input) =>
      var request := ClaudeRequest(Value(model), ClaudeMaxTokens, ZeroTemperature, input.system, input.messages, BetaHeaders);
      ClaudeCall(Some(request), outcome.texts, OutcomeText(outcome))
  }
}
