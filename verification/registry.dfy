/** The model registry: the `Llm` enumeration of backend/llm.py and the
    lookup that turns a front-end model name into one of its members.
 */
module Registry {
  import opened Results

  /** Every model the adapter can drive; the member names follow the enumeration. */
  datatype Llm =
    | GPT_4_VISION
    | GPT_4_TURBO_2024_04_09
    | GPT_4O_2024_05_13
    | GPT_4O_2024_08_06
    | GPT_4O_2024_11_20
    | CLAUDE_3_SONNET
    | CLAUDE_3_OPUS
    | CLAUDE_3_HAIKU
    | CLAUDE_3_5_SONNET_2024_06_20
    | CLAUDE_3_5_SONNET_2024_10_22
    | GEMINI_2_0_FLASH_EXP
    | O1_2024_12_17

  /** The model version string sent to the provider and stored in logs (`model.value`). */
  function Value(m: Llm): string
  {
    match m
    case GPT_4_VISION => "gpt-4-vision-preview"
    case GPT_4_TURBO_2024_04_09 => "gpt-4-turbo-2024-04-09"
    case GPT_4O_2024_05_13 => "gpt-4o-2024-05-13"
    case GPT_4O_2024_08_06 => "gpt-4o-2024-08-06"
    case GPT_4O_2024_11_20 => "gpt-4o-2024-11-20"
    case CLAUDE_3_SONNET => "claude-3-sonnet-20240229"
    case CLAUDE_3_OPUS => "claude-3-opus-20240229"
    case CLAUDE_3_HAIKU => "claude-3-haiku-20240307"
    case CLAUDE_3_5_SONNET_2024_06_20 => "claude-3-5-sonnet-20240620"
    case CLAUDE_3_5_SONNET_2024_10_22 => "claude-3-5-sonnet-20241022"
    case GEMINI_2_0_FLASH_EXP => "gemini-2.0-flash-exp"
    case O1_2024_12_17 => "o1-2024-12-17"
  }

  /** The legacy front-end names that are not member values. */
  const VisionAlias: string := "gpt_4_vision"
  const SonnetAlias: string := "claude_3_sonnet"

  /** The twelve members, each once; `FindByValue` searches them for a value. */
  function Members(): (ms: seq<Llm>)
    ensures |ms| == 12
    ensures forall i, j :: 0 <= i < j < |ms| ==> ms[i] != ms[j]
  {
    [ GPT_4_VISION, GPT_4_TURBO_2024_04_09, GPT_4O_2024_05_13, GPT_4O_2024_08_06,
      GPT_4O_2024_11_20, CLAUDE_3_SONNET, CLAUDE_3_OPUS, CLAUDE_3_HAIKU,
      CLAUDE_3_5_SONNET_2024_06_20, CLAUDE_3_5_SONNET_2024_10_22,
      GEMINI_2_0_FLASH_EXP, O1_2024_12_17 ]
  }

  /** Every member is listed. */
  lemma MembersComplete(m: Llm)
    ensures m in Members()
  {
  }

  /** The member of `ms` whose value is `s`, if any: the by-value lookup `Llm(s)`. */
  function FindByValue(ms: seq<Llm>, s: string): (r: Option<Llm>)
    ensures r.Some? ==> r.value in ms && Value(r.value) == s
    ensures r.None? ==> forall m :: m in ms ==> Value(m) != s
  {
    if |ms| == 0 then None
    else if Value(ms[0]) == s then Some(ms[0])
    else FindByValue(ms[1..], s)
  }

  /** `convert_frontend_str_to_llm`: the two legacy aliases, else a literal
      lookup by value that fails for an unknown string. */
  function Convert(frontend: string): (r: Result<Llm>)
    ensures frontend == VisionAlias ==> r == Ok(GPT_4_VISION)
    ensures frontend == SonnetAlias ==> r == Ok(CLAUDE_3_SONNET)
    ensures frontend != VisionAlias && frontend != SonnetAlias ==>
              (r.Ok? <==> exists m :: Value(m) == frontend)
    ensures frontend != VisionAlias && frontend != SonnetAlias && r.Ok? ==>
              Value(r.value) == frontend
    ensures r.Err? ==> r.error == UnknownModel(frontend)
  {
    if frontend == VisionAlias then Ok(GPT_4_VISION)
    else if frontend == SonnetAlias then Ok(CLAUDE_3_SONNET)
    else
      match FindByValue(Members(), frontend)
      case Some(m) => Ok(m)
      case None => Err(UnknownModel(frontend))
  }

  /** No two members share a value, so a lookup by value is unambiguous. */
  lemma ValueInjective(a: Llm, b: Llm)
    requires Value(a) == Value(b)
    ensures a == b
  {
  }

  /** Neither legacy alias is a member value: values use '-' and aliases '_'. */
  lemma AliasesAreNotValues(m: Llm)
    ensures Value(m) != VisionAlias && Value(m) != SonnetAlias
  {
  }

  /** Every member's own value resolves back to that member. */
  lemma ConvertValue(m: Llm)
    ensures Convert(Value(m)) == Ok(m)
  {
  }

  /** Names that are neither aliases nor values are rejected, among them the
      underscore spelling of a model that only has a dashed value. */
  lemma UnregisteredNamesRejected()
    ensures Convert("not_a_real_model") == Err(UnknownModel("not_a_real_model"))
    ensures Convert("claude_3_5_sonnet") == Err(UnknownModel("claude_3_5_sonnet"))
  {
    forall m: Llm
      ensures Value(m) != "not_a_real_model" && Value(m) != "claude_3_5_sonnet"
    {
      assert Value(m)[0] != "claude_3_5_sonnet"[0] || Value(m)[6] != "claude_3_5_sonnet"[6];
    }
  }
}
