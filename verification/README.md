# Streaming LLM adapter — Dafny model

This project models the decision and transformation logic of `backend/llm.py`,
the adapter through which the screenshot-to-code backend drives OpenAI, Claude
and Gemini models:

- the model registry (`Llm`) and `convert_frontend_str_to_llm`, which maps a
  front-end name to a model through two legacy aliases or a literal lookup by value;
- the request parameters of the OpenAI-compatible paths: which models get an
  explicit `max_tokens` (4096, 16384 or none), and the fixed Gemini parameters;
- fragment accumulation in `stream_openai_response` and
  `generate_gemini_response_openai_compatible`: the provider's stream is a
  finite sequence of chunks, and callback calls are recorded as a trace;
- the OpenAI-to-Claude translation in `stream_claude_response`: the first
  turn's content becomes the system prompt, and every `image_url` part is
  rewritten into a Claude `image` part with a base64 `source`;
- the two-pass refinement loop of `stream_claude_response_native`;
- the fixed dispatch of `stream_gemini_response`.

Files, one module each: `results.dfy` (`Option`, `Result`, the error reasons),
`fragments.dfy` (concatenating fragments), `registry.dfy`, `messages.dfy`
(turns and content parts), `params.dfy`, `streaming.dfy`, `claude.dfy` and
`refine.dfy`.

Modelling choices:

- Each raise the model can represent becomes an `Err` value. `messages[0]` on an empty
  list gives `EmptyConversation`. A missing `image_url.url` gives
  `MalformedImagePart`. A raising `process_image` gives `ImageProcessing(cause)`. A final message without a leading text block gives
  `NoTextBlock`. A provider stream that raises gives `Transport(cause)`, on
  the OpenAI-compatible paths (`ChunkStream` ending in `BrokeOff`, which also
  stands for a failing `create`) as on the Claude paths (`StreamOutcome.Broken`).
  Fragments already handed to the callback stay in the trace.
- Python's in-place updates become values. The deep copy in
  `stream_claude_response` is therefore the ordinary meaning of a value: the
  caller's conversation cannot change. The refinement loop's in-place
  `messages +=` is returned as `Refined.conversation`, the caller's list after the call.
- A content part is its `"type"` string plus a map of its other keys. A turn is
  its role and content plus a map of its other keys (`name`, `tool_call_id`, …).
  A rewrite therefore changes exactly the keys the source touches and keeps the rest.
  Values the adapter never inspects are kept as their JSON text (`Field.Opaque`).
- `stream_claude_response_native`'s defaults are kept: thinking off, Claude 3 Opus.
- `process_image` is a function-typed parameter (`ImageProcessor`). For each
  URL it either encodes the image or fails with a cause.
- A `content` of `None` is `NoContent`. A first turn without `content` also
  gives `NoContent`, because the system prompt is read with `.get`.
- The Claude provider is a function from a request to a `StreamOutcome`. A
  `StreamOutcome` is the text increments delivered, followed by either the final
  message or the cause the stream broke off with.
- Temperatures and `top_p` are kept as their literals (`Float("0.0")`).

Three behaviours of the code worth stating:

- The code does not check that the first turn has the system role. It takes that
  turn's content as the system prompt, whatever its role (`Claude.ToClaude`).
- `"claude_3_5_sonnet"` is neither an alias nor a value, so
  `convert_frontend_str_to_llm` rejects it (`Registry.UnregisteredNamesRejected`).
- The "no response" failure of the refinement loop cannot occur. Every completed
  pass sets `response`, and a pass that fails raises before the check is reached
  (`Refinement.RefineNative` ensures `result != Err(NoResponse)`).

## Model

| member | source | states |
|---|---|---|
| Registry.Members | backend/llm.py:15-27 | twelve pairwise-distinct members |
| Registry.MembersComplete | backend/llm.py:15-27 | every member of the enumeration is in `Members`, so a by-value lookup can find any of them |
| Registry.FindByValue | backend/llm.py:37 | a found member is listed and has the looked-up value; not finding one means no listed member has it |
| Registry.Convert | backend/llm.py:31-37 | `gpt_4_vision` and `claude_3_sonnet` map to their members; any other string succeeds exactly when some member has it as value, yields that member, and otherwise fails with UnknownModel |
| Registry.ValueInjective | backend/llm.py:15-27 | two members with the same value are the same member |
| Registry.AliasesAreNotValues | backend/llm.py:32-35 | neither legacy alias is the value of any member |
| Registry.ConvertValue | backend/llm.py:15-37 | converting a member's value yields that member, for every member |
| Registry.UnregisteredNamesRejected | backend/llm.py:30-37 | `not_a_real_model` and `claude_3_5_sonnet` are rejected as unknown models |
| Params.OpenAIParams | backend/llm.py:49-67 | max_tokens is 4096 exactly for the three legacy models, 16384 exactly for GPT-4o 2024-11-20, absent otherwise; streaming, 600 s timeout, temperature 0.0 and the model value always present |
| Params.GeminiParams | backend/llm.py:340-350 | every model gets max_tokens 8192, top_p 0.95, streaming, 600 s timeout, temperature 0.0 |
| Params.SharedRequestPolicy | backend/llm.py:49-56 | both OpenAI-compatible paths agree on every parameter except max_tokens and top_p |
| Fragments.ConcatAppend | backend/llm.py:80 | accumulated text of two runs of fragments is the text of the first followed by the second |
| Fragments.ConcatSnoc | backend/llm.py:80 | appending a fragment extends the accumulated text by exactly that fragment |
| Streaming.Contributions | backend/llm.py:73-79 | at most one fragment per chunk, and every fragment is non-empty |
| Streaming.ContributionsAppend | backend/llm.py:71-81 | the fragments of a split stream are those of its halves, in order |
| Streaming.SilentChunk | backend/llm.py:73-78 | a chunk with no choices, no delta or empty content changes nothing wherever it appears |
| Streaming.ContributionsFromChunks | backend/llm.py:71-81 | a fragment is delivered exactly when some chunk's first choice carries it |
| Streaming.Accumulate | backend/llm.py:70-85 | the callback trace is the in-order list of contributing fragments and the returned text is its concatenation |
| Streaming.Consume | backend/llm.py:69-85 | the callback sees every contributing fragment delivered before the stream ends; a finished stream returns their concatenation, a broken one fails with its cause |
| Streaming.StreamOpenAI | backend/llm.py:40-85 | the request carries the caller's endpoint and the per-model parameters; the return value equals the concatenated callback trace, or the stream's failure |
| Streaming.GeminiOpenAICompatible | backend/llm.py:329-368 | the same accumulation against Google's OpenAI-compatible endpoint with the Gemini parameters |
| Streaming.StreamGemini | backend/llm.py:244-262 | dispatch always takes the OpenAI-compatible backend, with the same request, trace and result |
| Claude.FinalText | backend/llm.py:152 | the final text exists exactly when the first content block is a text block, and is that block's text |
| Claude.TranslatePart | backend/llm.py:113-132 | a non-image_url part is unchanged; an image_url part with a URL becomes an image part with no image_url key, a base64 source built from the processed URL, and every other key kept; one without a URL fails as malformed, and one whose image cannot be processed fails with the processor's cause |
| Claude.TranslateParts | backend/llm.py:113-132 | a part list translates exactly when each part does, element by element, keeping length and order; on failure the error is that of the first failing part |
| Claude.TranslateMessage | backend/llm.py:108-132 | text and `None` content are kept unchanged, the role and every other key of the turn are kept, a well-formed turn stays well formed, list content is translated part by part |
| Claude.TranslateMessages | backend/llm.py:108-132 | the translated turns correspond one to one, in order, with the input turns; on failure the error is that of the first failing turn |
| Claude.ToClaude | backend/llm.py:104-132 | an empty conversation fails, any other failure is the error of the first later turn that fails, a malformed image part or a failure of the image processor; otherwise the system prompt is the first turn's content and the translated list has one turn fewer and matches the later turns element by element, with no image_url part left |
| Claude.TranslateExamples | backend/llm.py:114-132 | an OpenAI image part becomes an `image` part holding only the base64 source of the processed URL, or fails with the processor's cause; a text part is unchanged |
| Claude.TranslateMessageIdempotent | backend/llm.py:109-132 | translating an already translated turn changes nothing: its parts are no longer image_url parts |
| Claude.TranslateIdempotent | backend/llm.py:109-132 | translating an already translated list changes nothing |
| Claude.StreamClaude | backend/llm.py:89-152 | a failed translation opens no stream; otherwise the request has the model value, 8192 tokens, temperature 0.0, the beta header, the first turn as system prompt and exactly the translated later turns; every increment reaches the callback; a broken stream fails with its cause, otherwise the result is the final message's first text |
| Refinement.ToSend | backend/llm.py:185-189 | a pass sends the current turns unchanged, plus the `<thinking>` assistant turn exactly when thinking is requested |
| Refinement.Relay | backend/llm.py:200-203 | every increment reaches the callback in order, and the debug stream is the concatenation of the whole trace |
| Refinement.RunPass | backend/llm.py:185-206 | one pass sends the current conversation, relays the stream, and yields the final message's text or the failure |
| Refinement.RefineNative | backend/llm.py:155-241 | at most two passes, the second only after the first succeeded; the second request is the original turns plus the `<thinking>`-prefixed answer and the improvement turn; on success the result is the second pass's text and the caller's list is four turns longer; the callback trace is both passes' increments in order; the no-response error never occurs |

## Left out

- Network and SDK calls (client construction, `chat.completions.create`, `messages.stream`, `get_final_message`, `client.close`): foreign library calls. Streams are given as inputs instead.
- Async scheduling and the callback's own effects: the callback is recorded as a trace of the fragments it receives.
- The internals of `process_image` (resizing and compression below 5 MB): they are not part of this model. It is a function parameter that may encode the image or fail.
- Debug and console output (`DebugFileWriter`, `IS_DEBUG_ENABLED`, `print`, `pprint_prompt`, the token-usage line): I/O with no effect on results. `full_stream` is still modelled.
- Floating-point values (`temperature`, `top_p`): kept as opaque literals, never computed with.
- The disabled `generate_gemini_response_google_generativeai` backend: it returns `""` and is unreachable, because the API type is a constant.
- Agreement between the streamed Claude text and the final message's text: the provider owns it. The model returns the final message's text and the increments separately.
- Content parts without a `"type"` key: the datatypes cannot represent them. `content["type"]` would raise `KeyError` on them.
- Later turns with no `"content"` key at all: the datatypes cannot represent them. `message["content"]` would raise `KeyError` on them. A `content` of `None` is modelled as `NoContent` and kept unchanged.
- Values of other keys, such as `tool_calls`, are kept as their JSON text: the adapter copies them without reading them.
- Closing the client on an error path: no resource is modelled.
