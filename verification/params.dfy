/** The request parameters the OpenAI-compatible paths build before opening a stream. */
module Params {
  import opened Results
  import opened Registry
  import opened Messages

  /** A floating-point setting, kept as its literal; nothing here computes with it. */
  datatype Float = Float(literal: string)

  const ZeroTemperature: Float := Float("0.0")
  const GeminiTopP: Float := Float("0.95")
  const TimeoutSeconds: nat := 600
  const LegacyCeiling: nat := 4096
  const LargeCeiling: nat := 16384
  const GeminiCeiling: nat := 8192
  const GeminiBaseUrl: string := "https://generativelanguage.googleapis.com/v1beta/openai/"

  /** The keyword arguments of `chat.completions.create`; an absent key is `None`. */
  datatype ChatParams = ChatParams(
    model: string,
    messages: seq<Message>,
    stream: bool,
    timeout: nat,
    temperature: Float,
    topP: Option<Float>,
    maxTokens: Option<nat>)

  /** The models that get the conservative 4096-token ceiling. */
  predicate GetsLegacyCeiling(model: Llm)
  {
    model == GPT_4_VISION || model == GPT_4_TURBO_2024_04_09 || model == GPT_4O_2024_05_13
  }

  /** The parameters of `stream_openai_response`: the fixed base, then
      `max_tokens` set to 4096 for the legacy models and to 16384 for
      GPT-4o 2024-11-20, in that order. */
  function OpenAIParams(model: Llm, messages: seq<Message>): (p: ChatParams)
    ensures p.model == Value(model) && p.messages == messages
    ensures p.stream && p.timeout == TimeoutSeconds && p.temperature == ZeroTemperature
    ensures p.topP == None
    ensures p.maxTokens == Some(4096) <==>
              model in {GPT_4_VISION, GPT_4_TURBO_2024_04_09, GPT_4O_2024_05_13}
    ensures p.maxTokens == Some(16384) <==> model == GPT_4O_2024_11_20
    ensures p.maxTokens == None <==>
              model !in {GPT_4_VISION, GPT_4_TURBO_2024_04_09, GPT_4O_2024_05_13, GPT_4O_2024_11_20}
  {
    var base := ChatParams(Value(model), messages, true, TimeoutSeconds, ZeroTemperature, None, None);
    var withLegacy := if GetsLegacyCeiling(model) then base.(maxTokens := Some(LegacyCeiling)) else base;
    if model == GPT_4O_2024_11_20 then withLegacy.(maxTokens := Some(LargeCeiling)) else withLegacy
  }

  /** The parameters of `generate_gemini_response_openai_compatible`: a
      fixed 8192-token ceiling and nucleus sampling at 0.95 for every model. */
  function GeminiParams(model: Llm, messages: seq<Message>): (p: ChatParams)
    ensures p.model == Value(model) && p.messages == messages
    ensures p.stream && p.timeout == TimeoutSeconds && p.temperature == ZeroTemperature
    ensures p.topP == Some(Float("0.95"))
    ensures p.maxTokens == Some(8192)
  {
    ChatParams(Value(model), messages, true, TimeoutSeconds, ZeroTemperature, Some(GeminiTopP), Some(GeminiCeiling))
  }

  /** Both OpenAI-compatible paths agree on everything but the ceiling and
      `top_p`: same model string, same messages, streaming, 600-second
      timeout and temperature zero. */
  lemma SharedRequestPolicy(model: Llm, messages: seq<Message>)
    ensures OpenAIParams(model, messages).(maxTokens := None)
         == GeminiParams(model, messages).(maxTokens := None, topP := None)
  {
  }
}
