/** `stream_claude_response_native`: two streaming passes against Claude,
    each pass's answer fed back into the caller's conversation before the next.
 */
module Refinement {
  import opened Results
  import opened Registry
  import opened Messages
  import opened Params
  import opened Fragments
  import opened Claude

  const MaxPasses: nat := 2
  const NativeMaxTokens: nat := 4096
  const ThinkingPrefix: string := "<thinking>"
  const ImproveInstruction: string :=
    "You've done a good job with a first draft. Improve this further based on the original instructions so that the app is fully functional and looks like the original video of the app we're trying to replicate."

  /** The priming turn seeded before a pass when thinking is requested. */
  const ThinkingTurn: Message := Turn(Assistant, Text(ThinkingPrefix))

  /** The conversation a pass sends: the current turns, plus the priming turn if asked. */
  function ToSend(messages: seq<Message>, includeThinking: bool): (sent: seq<Message>)
    ensures |sent| == |messages| + (if includeThinking then 1 else 0)
    ensures sent[..|messages|] == messages
    ensures includeThinking ==> sent[|messages|] == ThinkingTurn
  {
    if includeThinking then messages + [ThinkingTurn] else messages
  }

  /** The two turns appended after a pass: the answer behind the thinking
      prefix (whether or not thinking was requested) and the improvement request. */
  function Feedback(answer: string): seq<Message>
  {
    [Turn(Assistant, Text(ThinkingPrefix + answer)), Turn(User, Text(ImproveInstruction))]
  }

  /** The request of one pass. */
  function PassRequest(model: Llm, system: Content, messages: seq<Message>, includeThinking: bool): ClaudeRequest
  {
    ClaudeRequest(Value(model), NativeMaxTokens, ZeroTemperature, system, ToSend(messages, includeThinking), map[])
  }

  /** Everything the loop is observed to do: the requests it sent, the
      callback trace, the debug `full_stream`, the caller's list afterwards
      and the returned text. */
  datatype Refined = Refined(
    sent: seq<ClaudeRequest>,
    callbacks: seq<string>,
    fullStream: string,
    conversation: seq<Message>,
    result: Result<string>)

  /** Hands each text increment of a stream to the callback, in order, and
      appends it to the debug `full_stream`. */
  method Relay(texts: seq<string>, callbacks: seq<string>, fullStream: string)
    returns (callbacks': seq<string>, fullStream': string)
    requires fullStream == Concat(callbacks)
    ensures callbacks' == callbacks + texts
    ensures fullStream' == Concat(callbacks')
  {
    callbacks', fullStream' := callbacks, fullStream;
    var i := 0;
    while i < |texts|
      invariant 0 <= i <= |texts|
      invariant callbacks' == callbacks + texts[..i]
      invariant fullStream' == Concat(callbacks')
    {
      ConcatSnoc(callbacks', texts[i]);
      assert texts[..i + 1] == texts[..i] + [texts[i]];
      fullStream' := fullStream' + texts[i];
      callbacks' := callbacks' + [texts[i]];
      i := i + 1;
    }
    assert texts[..i] == texts;
  }

  /** One pass: send the current conversation (with the priming turn if
      asked), relay the stream's increments, and read the final message's text. */
  method RunPass(system: Content, conversation: seq<Message>, includeThinking: bool, model: Llm,
                 respond: ClaudeRequest -> StreamOutcome, callbacks: seq<string>, fullStream: string)
    returns (request: ClaudeRequest, callbacks': seq<string>, fullStream': string,
             answer: Result<string>, final: Option<FinalMessage>)
    requires fullStream == Concat(callbacks)
    ensures request == PassRequest(model, system, conversation, includeThinking)
    ensures callbacks' == callbacks + respond(request).texts
    ensures fullStream' == Concat(callbacks')
    ensures answer == OutcomeText(respond(request))
    ensures answer.Ok? ==> final.Some? && FinalText(final.value) == answer
  {
    request := PassRequest(model, system, conversation, includeThinking);
    var outcome := respond(request);
    callbacks', fullStream' := Relay(outcome.texts, callbacks, fullStream);
    match outcome
    case Broken(_, cause) =>
      answer, final := Err(Transport(cause)), None;
    case Completed(_, message) =>
      answer, final := FinalText(message), Some(message);
  }

  /** The two-pass loop. `respond` stands for the provider: what the stream
      opened for a request delivers. A broken stream or a final message
      without a leading text block ends the call at that pass. */
  method RefineNative(system: Content, messages: seq<Message>, respond: ClaudeRequest -> StreamOutcome,
                      includeThinking: bool := false, model: Llm := CLAUDE_3_OPUS)
    returns (out: Refined)
    ensures 1 <= |out.sent| <= MaxPasses
    ensures out.sent[0] == PassRequest(model, system, messages, includeThinking)
    ensures |out.sent| == 2 ==>
              && OutcomeText(respond(out.sent[0])).Ok?
              && out.sent[1] == PassRequest(model, system, messages + Feedback(OutcomeText(respond(out.sent[0])).value), includeThinking)
    ensures out.callbacks == respond(out.sent[0]).texts + (if |out.sent| == 2 then respond(out.sent[1]).texts else [])
    ensures out.fullStream == Concat(out.callbacks)
    ensures out.result.Ok? <==> |out.sent| == 2 && OutcomeText(respond(out.sent[1])).Ok?
    ensures out.result == OutcomeText(respond(out.sent[|out.sent| - 1]))
    ensures out.result.Ok? ==>
              out.conversation == messages + Feedback(OutcomeText(respond(out.sent[0])).value) + Feedback(out.result.value)
    ensures out.result.Err? ==>
              out.conversation == messages + (if |out.sent| == 2 then Feedback(OutcomeText(respond(out.sent[0])).value) else [])
    ensures out.result != Err(NoResponse)
    ensures out.result.Ok? ==> |out.conversation| == |messages| + 4
    ensures |out.sent| == 2 ==> |out.sent[1].messages| == |messages| + 2 + (if includeThinking then 1 else 0)
  {
    var conversation := messages;
    var sent: seq<ClaudeRequest> := [];
    var answers: seq<string> := [];
    var callbacks: seq<string> := [];
    var fullStream := "";
    var response: Option<FinalMessage> := None;
    var pass := 1;
    while pass <= MaxPasses
      invariant 1 <= pass <= MaxPasses + 1
      invariant |sent| == |answers| == pass - 1
      invariant response.Some? <==> pass > 1
      invariant pass > 1 ==> FinalText(response.value) == Ok(answers[pass - 2])
      invariant forall k :: 0 <= k < |sent| ==> OutcomeText(respond(sent[k])) == Ok(answers[k])
      invariant pass > 1 ==> sent[0] == PassRequest(model, system, messages, includeThinking)
      invariant pass > 2 ==> sent[1] == PassRequest(model, system, messages + Feedback(answers[0]), includeThinking)
      invariant pass == 1 ==> conversation == messages && callbacks == []
      invariant pass == 2 ==> conversation == messages + Feedback(answers[0]) && callbacks == respond(sent[0]).texts
      invariant pass == 3 ==> conversation == messages + Feedback(answers[0]) + Feedback(answers[1])
                              && callbacks == respond(sent[0]).texts + respond(sent[1]).texts
      invariant fullStream == Concat(callbacks)
    {
      pass := pass + 1;
      var request, answer, final;
      request, callbacks, fullStream, answer, final :=
        RunPass(system, conversation, includeThinking, model, respond, callbacks, fullStream);
      sent := sent + [request];
      if answer.Err? {
        out := Refined(sent, callbacks, fullStream, conversation, answer);
        return;
      }
      response := final;
      answers := answers + [answer.value];
      conversation := conversation + Feedback(answer.value);
    }
    if response.None? {
      out := Refined(sent, callbacks, fullStream, conversation, Err(NoResponse));
    } else {
      out := Refined(sent, callbacks, fullStream, conversation, Ok(response.value.content[0].text));
    }
  }
}
